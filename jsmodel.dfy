/** The JS engine (docs/js/chessteg.js) as functions of its state: move
    generation, the attack query, the castling test, the legality filter and
    the state changes of zugAusfuehren, zugZuruecknehmen and
    zugWiederherstellen.  The class in JsEngine runs the source's loops and
    is proved to compute exactly these functions. */
module JsModel {
  import opened Common
  import opened BoardGen

  /** The copy {art, farbe, pos} of a captured piece stored in a move. */
  datatype Victim = Victim(art: int, farbe: int, pos: int)

  /** Castling side: 'kurz' (king side) or 'lang' (queen side). */
  datatype Seite = Kurz | Lang

  /** A move record as erstelleZug builds it. */
  datatype Zug = Zug(vonPos: int, nachPos: int, art: int, farbe: int,
                     geschlagen: Option<Victim>, umwandlungsFigur: Option<int>,
                     enPassant: bool, rochade: Option<Seite>,
                     istBauernDoppelschritt: bool)

  /** The fields the generators and the legality filter read. */
  datatype Stellung = Stellung(brett: seq<int>, figuren: seq<Piece>, weissAmZug: bool,
                               rochadeRechte: Rights, enPassantTarget: Option<int>)

  /** The snapshot of erstelleZustandSnapshot. */
  datatype Zustand = Zustand(stellung: Stellung, bewertung: int, endmatt: bool, patt: bool,
                             halbzugCounter: int, vollzugCounter: int, zugCounter: int)

  /** A history entry: the move, the snapshot before it and the counters after it. */
  datatype Eintrag = Eintrag(zug: Zug, zustandVorZug: Zustand, zugNummer: int, vollzugNummer: int)

  /** The whole engine state that moves, undo and redo change. */
  datatype Partie = Partie(zustand: Zustand, zugHistorie: seq<Eintrag>, historieIndex: int,
                           letzterZug: Option<Eintrag>)

  const MAX_HISTORIE: int := 50
  const UMWANDLUNGEN: seq<int> := [QUEEN, ROOK, BISHOP, KNIGHT]

  predicate PieceOk(f: Piece)
  {
    IsValidPosition(f.pos) && IsColour(f.colour) && IsKind(f.kind)
  }

  predicate RosterOk(fs: seq<Piece>)
  {
    forall i :: 0 <= i < |fs| ==> PieceOk(fs[i])
  }

  /** Every roster entry stands on a playable square, the border of the board
      is intact and an en-passant target is a playable square. */
  predicate StellungOk(s: Stellung)
  {
    Bordered(s.brett) && RosterOk(s.figuren) &&
    (s.enPassantTarget.Some? ==> IsValidPosition(s.enPassantTarget.value))
  }

  predicate ZustandOk(z: Zustand)
  {
    StellungOk(z.stellung)
  }

  function Vorwaerts(farbe: int): int
  {
    if farbe == WHITE then 10 else -10
  }

  /** The square a double pawn step passes over. */
  function EpFeld(zug: Zug): int
  {
    if zug.farbe == WHITE then zug.nachPos - 10 else zug.nachPos + 10
  }

  /** The moves the engine is handed: squares on the board, a real piece. */
  predicate ZugOk(zug: Zug)
  {
    IsValidPosition(zug.vonPos) && IsValidPosition(zug.nachPos) &&
    IsKind(zug.art) && IsColour(zug.farbe) &&
    (zug.geschlagen.Some? ==> IsValidPosition(zug.geschlagen.value.pos)) &&
    (zug.umwandlungsFigur.Some? ==> IsKind(zug.umwandlungsFigur.value)) &&
    (zug.istBauernDoppelschritt ==> IsValidPosition(EpFeld(zug)))
  }

  predicate PartieOk(p: Partie)
  {
    ZustandOk(p.zustand) &&
    -1 <= p.historieIndex < |p.zugHistorie| <= MAX_HISTORIE &&
    forall i :: 0 <= i < |p.zugHistorie| ==>
      ZustandOk(p.zugHistorie[i].zustandVorZug) && ZugOk(p.zugHistorie[i].zug)
  }

  // ---------------------------------------------------------------------
  // Roster searches (Array.prototype.find in the source)

  /** findeGeschlageneFigur: the first live piece on `position` whose colour
      is not the side to move. */
  function FindeGeschlageneFigur(s: Stellung, position: int): Option<nat>
  {
    FindIndex(s.figuren, (f: Piece) => f.pos == position && !f.captured &&
      ((s.weissAmZug && f.colour == BLACK) || (!s.weissAmZug && f.colour == WHITE)))
  }

  /** The first live piece of `farbe` on `von` (the mover). */
  function ZiehendeFigur(fs: seq<Piece>, von: int, farbe: int): Option<nat>
  {
    FindIndex(fs, (f: Piece) => f.pos == von && !f.captured && f.colour == farbe)
  }

  /** The first live piece of the colour `-farbe` on `feld`. */
  function GegnerAuf(fs: seq<Piece>, feld: int, farbe: int): Option<nat>
  {
    FindIndex(fs, (f: Piece) => f.pos == feld && !f.captured && f.colour == -farbe)
  }

  /** The first live piece on `feld`, of either colour. */
  function LebendeFigurAuf(fs: seq<Piece>, feld: int): Option<nat>
  {
    FindIndex(fs, (f: Piece) => f.pos == feld && !f.captured)
  }

  /** The first live king of `farbe`. */
  function KoenigIndex(fs: seq<Piece>, farbe: int): Option<nat>
  {
    FindIndex(fs, (f: Piece) => f.kind == KING && f.colour == farbe && !f.captured)
  }

  /** The first live piece of kind `art` and colour `farbe` on `feld`. */
  function FigurAuf(fs: seq<Piece>, art: int, farbe: int, feld: int): Option<nat>
  {
    FindIndex(fs, (f: Piece) => f.kind == art && f.colour == farbe && f.pos == feld && !f.captured)
  }

  function Opfer(s: Stellung, position: int): Option<Victim>
  {
    match FindeGeschlageneFigur(s, position)
    case None => None
    case Some(i) => Some(Victim(s.figuren[i].kind, s.figuren[i].colour, s.figuren[i].pos))
  }

  // ---------------------------------------------------------------------
  // Move generation

  /** erstelleZug: the victim is looked up only for a capture; the double
      step flag is set for a pawn moving 20 cells. */
  function ErstelleZug(s: Stellung, figur: Piece, zielPos: int, istSchlag: bool, umwandlung: Option<int>): Zug
  {
    Zug(figur.pos, zielPos, figur.kind, figur.colour,
        if istSchlag then Opfer(s, zielPos) else None,
        umwandlung, false, None,
        figur.kind == PAWN && Abs(zielPos - figur.pos) == 20)
  }

  /** The moves for a list of targets, in order. */
  function Zuege(s: Stellung, figur: Piece, ts: seq<Target>): (zs: seq<Zug>)
    ensures |zs| == |ts|
    ensures forall i :: 0 <= i < |ts| ==> zs[i] == ErstelleZug(s, figur, ts[i].sq, ts[i].capture, None)
  {
    seq(|ts|, i requires 0 <= i < |ts| => ErstelleZug(s, figur, ts[i].sq, ts[i].capture, None))
  }

  lemma ZuegeAppend(s: Stellung, figur: Piece, a: seq<Target>, b: seq<Target>)
    ensures Zuege(s, figur, a + b) == Zuege(s, figur, a) + Zuege(s, figur, b)
  {
  }

  lemma ZuegeAnhang(s: Stellung, figur: Piece, a: seq<Target>, t: Target)
    ensures Zuege(s, figur, a + [t]) == Zuege(s, figur, a) + [ErstelleZug(s, figur, t.sq, t.capture, None)]
  {
    ZuegeAppend(s, figur, a, [t]);
  }

  /** One EMPTY cell of a sliding walk: its quiet move is appended and the
      walk goes on from the next cell. */
  lemma GleitFeldLeer(s: Stellung, figur: Piece, start: int, d: int, gelaufen: seq<Target>, feld: int)
    requires Bordered(s.brett) && IsStep(d) && 0 <= start < BOARD_SIZE && 0 <= feld < BOARD_SIZE
    requires s.brett[feld] == EMPTY
    requires Walk(s.brett, figur.colour, start, d) == gelaufen + Walk(s.brett, figur.colour, feld, d)
    ensures 0 <= feld + d < BOARD_SIZE
    ensures Walk(s.brett, figur.colour, start, d) == (gelaufen + [Target(feld, false)]) + Walk(s.brett, figur.colour, feld + d, d)
    ensures Zuege(s, figur, gelaufen + [Target(feld, false)]) == Zuege(s, figur, gelaufen) + [ErstelleZug(s, figur, feld, false, None)]
  {
    WalkOverEmpty(s.brett, figur.colour, feld, d);
    ZuegeAnhang(s, figur, gelaufen, Target(feld, false));
  }

  /** An occupied cell ends a sliding walk: the moves are complete once an
      enemy there has been taken in. */
  lemma GleitFeldBesetzt(s: Stellung, figur: Piece, start: int, d: int, gelaufen: seq<Target>, feld: int)
    requires Bordered(s.brett) && IsStep(d) && 0 <= start < BOARD_SIZE && 0 <= feld < BOARD_SIZE
    requires s.brett[feld] != EMPTY && s.brett[feld] != DUMMY
    requires Walk(s.brett, figur.colour, start, d) == gelaufen + Walk(s.brett, figur.colour, feld, d)
    ensures Zuege(s, figur, Walk(s.brett, figur.colour, start, d)) ==
      Zuege(s, figur, gelaufen) + (if IsOpponent(figur.colour, s.brett[feld]) then [ErstelleZug(s, figur, feld, true, None)] else [])
  {
    WalkEndsOnPiece(s.brett, figur.colour, feld, d);
    if IsOpponent(figur.colour, s.brett[feld]) {
      ZuegeAnhang(s, figur, gelaufen, Target(feld, true));
    } else {
      assert gelaufen + [] == gelaufen;
    }
  }

  function TurmZuege(s: Stellung, figur: Piece): seq<Zug>
    requires StellungOk(s) && PieceOk(figur)
  {
    OffsetTablesAreSteps();
    Zuege(s, figur, Slide(s.brett, figur.colour, figur.pos, ROOK_DIRECTIONS))
  }

  function LaeuferZuege(s: Stellung, figur: Piece): seq<Zug>
    requires StellungOk(s) && PieceOk(figur)
  {
    OffsetTablesAreSteps();
    Zuege(s, figur, Slide(s.brett, figur.colour, figur.pos, BISHOP_DIRECTIONS))
  }

  function DameZuege(s: Stellung, figur: Piece): seq<Zug>
    requires StellungOk(s) && PieceOk(figur)
  {
    TurmZuege(s, figur) + LaeuferZuege(s, figur)
  }

  function SpringerZuege(s: Stellung, figur: Piece): seq<Zug>
    requires StellungOk(s) && PieceOk(figur)
  {
    OffsetTablesAreSteps();
    Zuege(s, figur, Jumps(s.brett, figur.colour, figur.pos, KNIGHT_OFFSETS))
  }

  predicate IstUmwandlungsReihe(farbe: int, reihe: int)
  {
    (farbe == WHITE && reihe == 9) || (farbe == BLACK && reihe == 2)
  }

  function Startreihe(farbe: int): int
  {
    if farbe == WHITE then 3 else 8
  }

  /** The four promotion moves onto `feld`, queen first. */
  function Umwandlungen(s: Stellung, figur: Piece, feld: int, istSchlag: bool): (zs: seq<Zug>)
    ensures |zs| == 4
    ensures forall k :: 0 <= k < 4 ==> zs[k] == ErstelleZug(s, figur, feld, istSchlag, Some(UMWANDLUNGEN[k]))
  {
    seq(4, k requires 0 <= k < 4 => ErstelleZug(s, figur, feld, istSchlag, Some(UMWANDLUNGEN[k])))
  }

  /** The single step (four promotions on the last row) and the double step
      from the start row. */
  function BauernVorwaerts(s: Stellung, figur: Piece): seq<Zug>
    requires StellungOk(s) && PieceOk(figur)
  {
    var v := Vorwaerts(figur.colour);
    StepInside(figur.pos, v);
    var feld := figur.pos + v;
    if s.brett[feld] != EMPTY then []
    else if IstUmwandlungsReihe(figur.colour, feld / 10) then Umwandlungen(s, figur, feld, false)
    else
      [ErstelleZug(s, figur, feld, false, None)] +
      (if figur.pos / 10 == Startreihe(figur.colour) && s.brett[feld + v] == EMPTY
       then [ErstelleZug(s, figur, feld + v, false, None)] else [])
  }

  predicate IsDiagonal(seite: int)
  {
    seite == 11 || seite == 9 || seite == -9 || seite == -11
  }

  /** A diagonal capture onto an enemy (four promotions on the last row). */
  function BauernSchlag(s: Stellung, figur: Piece, seite: int): seq<Zug>
    requires StellungOk(s) && PieceOk(figur) && IsDiagonal(seite)
  {
    StepInside(figur.pos, seite);
    var feld := figur.pos + seite;
    if s.brett[feld] != DUMMY && s.brett[feld] != EMPTY && IsOpponent(figur.colour, s.brett[feld]) then
      if IstUmwandlungsReihe(figur.colour, feld / 10) then Umwandlungen(s, figur, feld, true)
      else [ErstelleZug(s, figur, feld, true, None)]
    else []
  }

  /** `if (this.enPassantTarget)`: set and not 0. */
  predicate EpGesetzt(s: Stellung)
  {
    s.enPassantTarget.Some? && s.enPassantTarget.value != 0
  }

  /** The en-passant capture onto the target square; the victim is looked up
      on the square behind it. */
  function EnPassantZug(s: Stellung, figur: Piece, seite: int): seq<Zug>
  {
    var feld := figur.pos + seite;
    if s.enPassantTarget == Some(feld) then
      var geschlagenPos := if figur.colour == WHITE then feld - 10 else feld + 10;
      [ErstelleZug(s, figur, feld, true, None).(geschlagen := Opfer(s, geschlagenPos), enPassant := true)]
    else []
  }

  function BauernZuege(s: Stellung, figur: Piece): seq<Zug>
    requires StellungOk(s) && PieceOk(figur)
  {
    var v := Vorwaerts(figur.colour);
    BauernVorwaerts(s, figur) + BauernSchlag(s, figur, v + 1) + BauernSchlag(s, figur, v - 1) +
    (if EpGesetzt(s) then EnPassantZug(s, figur, v + 1) + EnPassantZug(s, figur, v - 1) else [])
  }

  // ---------------------------------------------------------------------
  // Attack detection (generiereFigurenZuegeOhneSchachpruefung), by the
  // destination squares, the only field its callers read.

  function Ziele(ts: seq<Target>): (zs: seq<int>)
    ensures |zs| == |ts| && forall i :: 0 <= i < |ts| ==> zs[i] == ts[i].sq
  {
    seq(|ts|, i requires 0 <= i < |ts| => ts[i].sq)
  }

  lemma ZieleAppend(a: seq<Target>, b: seq<Target>)
    ensures Ziele(a + b) == Ziele(a) + Ziele(b)
  {
  }

  function NachPositionen(zs: seq<Zug>): (ps: seq<int>)
    ensures |ps| == |zs| && forall i :: 0 <= i < |zs| ==> ps[i] == zs[i].nachPos
  {
    seq(|zs|, i requires 0 <= i < |zs| => zs[i].nachPos)
  }

  lemma NachPositionenZuege(s: Stellung, figur: Piece, ts: seq<Target>)
    ensures NachPositionen(Zuege(s, figur, ts)) == Ziele(ts)
  {
  }

  /** generiereBauernZuegeOhneEnPassant, one diagonal. */
  function BauernAngriff(b: seq<int>, figur: Piece, seite: int): seq<int>
    requires Bordered(b) && PieceOk(figur) && IsDiagonal(seite)
  {
    StepInside(figur.pos, seite);
    var feld := figur.pos + seite;
    if b[feld] != DUMMY && b[feld] != EMPTY && IsOpponent(figur.colour, b[feld]) then [feld] else []
  }

  function AngriffsZiele(s: Stellung, figur: Piece): seq<int>
    requires StellungOk(s) && PieceOk(figur)
  {
    OffsetTablesAreSteps();
    var b := s.brett;
    if figur.kind == ROOK then Ziele(Slide(b, figur.colour, figur.pos, ROOK_DIRECTIONS))
    else if figur.kind == BISHOP then Ziele(Slide(b, figur.colour, figur.pos, BISHOP_DIRECTIONS))
    else if figur.kind == QUEEN then
      Ziele(Slide(b, figur.colour, figur.pos, ROOK_DIRECTIONS)) + Ziele(Slide(b, figur.colour, figur.pos, BISHOP_DIRECTIONS))
    else if figur.kind == KNIGHT then Ziele(Jumps(b, figur.colour, figur.pos, KNIGHT_OFFSETS))
    else if figur.kind == PAWN then
      var v := Vorwaerts(figur.colour);
      BauernAngriff(b, figur, v + 1) + BauernAngriff(b, figur, v - 1)
    else if figur.kind == KING then Ziele(Jumps(b, figur.colour, figur.pos, KING_OFFSETS))
    else []
  }

  /** istFeldBedroht: some live piece of the other colour reaches `feld`. */
  predicate Bedroht(s: Stellung, feld: int, farbe: int)
    requires StellungOk(s)
  {
    exists i :: 0 <= i < |s.figuren| && !s.figuren[i].captured && s.figuren[i].colour == -farbe &&
      feld in AngriffsZiele(s, s.figuren[i])
  }

  /** istKoenigImSchach: false without a king; else its square is attacked. */
  predicate ImSchach(s: Stellung, farbe: int)
    requires StellungOk(s)
  {
    match KoenigIndex(s.figuren, farbe)
    case None => false
    case Some(k) => Bedroht(s, s.figuren[k].pos, farbe)
  }

  // ---------------------------------------------------------------------
  // Castling

  function Grundreihe(farbe: int): int
  {
    if farbe == WHITE then 2 else 9
  }

  function KoenigStart(farbe: int): int
  {
    Grundreihe(farbe) * 10 + 5
  }

  function KoenigZiel(farbe: int, seite: Seite): int
  {
    Grundreihe(farbe) * 10 + (if seite == Kurz then 7 else 3)
  }

  function TurmStart(farbe: int, seite: Seite): int
  {
    Grundreihe(farbe) * 10 + (if seite == Kurz then 8 else 1)
  }

  function TurmZiel(farbe: int, seite: Seite): int
  {
    Grundreihe(farbe) * 10 + (if seite == Kurz then 6 else 4)
  }

  /** The squares between king and rook that must be empty. */
  function LeereFelder(farbe: int, seite: Seite): seq<int>
  {
    var k := KoenigStart(farbe);
    if seite == Kurz then [k + 1, k + 2] else [k - 1, k - 2, k - 3]
  }

  /** The king's start, transit and landing squares. */
  function SchachFelder(farbe: int, seite: Seite): seq<int>
  {
    var k := KoenigStart(farbe);
    if seite == Kurz then [k, k + 1, k + 2] else [k, k - 1, k - 2]
  }

  function RechtFuer(r: Rights, farbe: int, seite: Seite): bool
  {
    if seite == Kurz then (if farbe == WHITE then r.whiteKingside else r.blackKingside)
    else (if farbe == WHITE then r.whiteQueenside else r.blackQueenside)
  }

  lemma CastlingSquaresOnBoard(farbe: int, seite: Seite)
    ensures IsValidPosition(KoenigStart(farbe)) && IsValidPosition(KoenigZiel(farbe, seite))
    ensures IsValidPosition(TurmStart(farbe, seite)) && IsValidPosition(TurmZiel(farbe, seite))
    ensures forall f :: f in LeereFelder(farbe, seite) ==> IsValidPosition(f)
    ensures forall f :: f in SchachFelder(farbe, seite) ==> IsValidPosition(f)
  {
  }

  /** istRochadeMoeglich. */
  predicate RochadeMoeglich(s: Stellung, farbe: int, seite: Seite)
    requires StellungOk(s)
  {
    CastlingSquaresOnBoard(farbe, seite);
    RechtFuer(s.rochadeRechte, farbe, seite) &&
    FigurAuf(s.figuren, KING, farbe, KoenigStart(farbe)).Some? &&
    FigurAuf(s.figuren, ROOK, farbe, TurmStart(farbe, seite)).Some? &&
    (forall f :: f in LeereFelder(farbe, seite) ==> s.brett[f] == EMPTY) &&
    (forall f :: f in SchachFelder(farbe, seite) ==> !Bedroht(s, f, farbe))
  }

  /** RochadeMoeglich as the conjunction of its five tests, one boolean each. */
  lemma RochadeMoeglichParts(s: Stellung, farbe: int, seite: Seite)
    requires StellungOk(s)
    ensures RochadeMoeglich(s, farbe, seite) ==
      (RechtFuer(s.rochadeRechte, farbe, seite) &&
       FigurAuf(s.figuren, KING, farbe, KoenigStart(farbe)).Some? &&
       FigurAuf(s.figuren, ROOK, farbe, TurmStart(farbe, seite)).Some? &&
       (forall f :: f in LeereFelder(farbe, seite) ==> s.brett[f] == EMPTY) &&
       (forall f :: f in SchachFelder(farbe, seite) ==> !Bedroht(s, f, farbe)))
  {
  }

  /** White castling in concrete squares: e1 = 25, the rook on h1 = 28 or
      a1 = 21, f1/g1 or d1/c1/b1 empty, and e1, f1, g1 (or e1, d1, c1) not
      attacked.  Black is the same with 70 added. */
  lemma RochadeFelderKonkret(s: Stellung)
    requires StellungOk(s)
    ensures RochadeMoeglich(s, WHITE, Kurz) <==>
      s.rochadeRechte.whiteKingside &&
      FigurAuf(s.figuren, KING, WHITE, 25).Some? && FigurAuf(s.figuren, ROOK, WHITE, 28).Some? &&
      s.brett[26] == EMPTY && s.brett[27] == EMPTY &&
      !Bedroht(s, 25, WHITE) && !Bedroht(s, 26, WHITE) && !Bedroht(s, 27, WHITE)
    ensures RochadeMoeglich(s, WHITE, Lang) <==>
      s.rochadeRechte.whiteQueenside &&
      FigurAuf(s.figuren, KING, WHITE, 25).Some? && FigurAuf(s.figuren, ROOK, WHITE, 21).Some? &&
      s.brett[24] == EMPTY && s.brett[23] == EMPTY && s.brett[22] == EMPTY &&
      !Bedroht(s, 25, WHITE) && !Bedroht(s, 24, WHITE) && !Bedroht(s, 23, WHITE)
    ensures RochadeMoeglich(s, BLACK, Kurz) <==>
      s.rochadeRechte.blackKingside &&
      FigurAuf(s.figuren, KING, BLACK, 95).Some? && FigurAuf(s.figuren, ROOK, BLACK, 98).Some? &&
      s.brett[96] == EMPTY && s.brett[97] == EMPTY &&
      !Bedroht(s, 95, BLACK) && !Bedroht(s, 96, BLACK) && !Bedroht(s, 97, BLACK)
    ensures RochadeMoeglich(s, BLACK, Lang) <==>
      s.rochadeRechte.blackQueenside &&
      FigurAuf(s.figuren, KING, BLACK, 95).Some? && FigurAuf(s.figuren, ROOK, BLACK, 91).Some? &&
      s.brett[94] == EMPTY && s.brett[93] == EMPTY && s.brett[92] == EMPTY &&
      !Bedroht(s, 95, BLACK) && !Bedroht(s, 94, BLACK) && !Bedroht(s, 93, BLACK)
  {
    var wk, wl, bk, bl := LeereFelder(WHITE, Kurz), LeereFelder(WHITE, Lang), LeereFelder(BLACK, Kurz), LeereFelder(BLACK, Lang);
    assert wk == [26, 27] && wl == [24, 23, 22] && bk == [96, 97] && bl == [94, 93, 92];
    var swk, swl, sbk, sbl := SchachFelder(WHITE, Kurz), SchachFelder(WHITE, Lang), SchachFelder(BLACK, Kurz), SchachFelder(BLACK, Lang);
    assert swk == [25, 26, 27] && swl == [25, 24, 23] && sbk == [95, 96, 97] && sbl == [95, 94, 93];
  }

  function RochadeZug(s: Stellung, figur: Piece, seite: Seite): seq<Zug>
    requires StellungOk(s)
  {
    if RochadeMoeglich(s, figur.colour, seite)
    then [ErstelleZug(s, figur, KoenigZiel(figur.colour, seite), false, None).(rochade := Some(seite))]
    else []
  }

  /** generiereKoenigsZuege: the eight steps, then castling when not in check. */
  function KoenigsZuege(s: Stellung, figur: Piece): seq<Zug>
    requires StellungOk(s) && PieceOk(figur)
  {
    OffsetTablesAreSteps();
    Zuege(s, figur, Jumps(s.brett, figur.colour, figur.pos, KING_OFFSETS)) +
    (if !ImSchach(s, figur.colour) then RochadeZug(s, figur, Kurz) + RochadeZug(s, figur, Lang) else [])
  }

  /** generiereFigurenZuege. */
  function FigurenZuege(s: Stellung, figur: Piece): seq<Zug>
    requires StellungOk(s) && PieceOk(figur)
  {
    if figur.kind == ROOK then TurmZuege(s, figur)
    else if figur.kind == BISHOP then LaeuferZuege(s, figur)
    else if figur.kind == QUEEN then DameZuege(s, figur)
    else if figur.kind == KNIGHT then SpringerZuege(s, figur)
    else if figur.kind == KING then KoenigsZuege(s, figur)
    else if figur.kind == PAWN then BauernZuege(s, figur)
    else []
  }

  /** The moves of the live pieces of `farbe` among the first n roster entries. */
  function PseudoZuege(s: Stellung, farbe: int, n: nat): seq<Zug>
    requires StellungOk(s) && n <= |s.figuren|
  {
    if n == 0 then [] else PseudoZuege(s, farbe, n - 1) + EigeneZuege(s, farbe, s.figuren[n - 1])
  }

  /** One more roster entry adds its own moves at the end. */
  lemma PseudoZuegeSchritt(s: Stellung, farbe: int, i: nat)
    requires StellungOk(s) && i < |s.figuren|
    ensures PieceOk(s.figuren[i])
    ensures PseudoZuege(s, farbe, i + 1) == PseudoZuege(s, farbe, i) + EigeneZuege(s, farbe, s.figuren[i])
  {
  }

  /** The moves of one roster entry if it is a live piece of `farbe`. */
  function EigeneZuege(s: Stellung, farbe: int, f: Piece): seq<Zug>
    requires StellungOk(s) && PieceOk(f)
  {
    if !f.captured && f.colour == farbe then FigurenZuege(s, f) else []
  }

  // ---------------------------------------------------------------------
  // Generated moves are well formed

  lemma ZuegeOk(s: Stellung, figur: Piece, ts: seq<Target>)
    requires StellungOk(s) && PieceOk(figur) && figur.kind != PAWN
    requires forall t :: t in ts ==> TargetSound(s.brett, figur.colour, t)
    ensures forall z :: z in Zuege(s, figur, ts) ==> ZugOk(z)
  {
    forall z | z in Zuege(s, figur, ts) ensures ZugOk(z) {
      var i :| 0 <= i < |ts| && Zuege(s, figur, ts)[i] == z;
      assert ts[i] in ts;
    }
  }

  lemma OpferOk(s: Stellung, position: int)
    requires StellungOk(s)
    ensures Opfer(s, position).Some? ==> IsValidPosition(Opfer(s, position).value.pos)
  {
  }

  predicate AlleOk(zs: seq<Zug>)
  {
    forall z :: z in zs ==> ZugOk(z)
  }

  lemma UmwandlungenOk(s: Stellung, figur: Piece, feld: int, istSchlag: bool)
    requires StellungOk(s) && PieceOk(figur) && IsValidPosition(feld) && Abs(feld - figur.pos) <= 11
    ensures AlleOk(Umwandlungen(s, figur, feld, istSchlag))
  {
    OpferOk(s, feld);
    var zs := Umwandlungen(s, figur, feld, istSchlag);
    forall z | z in zs ensures ZugOk(z) {
      var k :| 0 <= k < 4 && zs[k] == z;
    }
  }

  lemma BauernVorwaertsOk(s: Stellung, figur: Piece)
    requires StellungOk(s) && PieceOk(figur)
    ensures AlleOk(BauernVorwaerts(s, figur))
  {
    var v := Vorwaerts(figur.colour);
    StepInside(figur.pos, v);
    var feld := figur.pos + v;
    if s.brett[feld] == EMPTY {
      assert IsValidPosition(feld);
      if IstUmwandlungsReihe(figur.colour, feld / 10) {
        UmwandlungenOk(s, figur, feld, false);
      } else if figur.pos / 10 == Startreihe(figur.colour) {
        assert IsValidPosition(feld + v);
      }
    }
  }

  lemma BauernSchlagOk(s: Stellung, figur: Piece, seite: int)
    requires StellungOk(s) && PieceOk(figur) && IsDiagonal(seite)
    ensures AlleOk(BauernSchlag(s, figur, seite))
  {
    StepInside(figur.pos, seite);
    var feld := figur.pos + seite;
    OpferOk(s, feld);
    if s.brett[feld] != DUMMY && IstUmwandlungsReihe(figur.colour, feld / 10) {
      UmwandlungenOk(s, figur, feld, true);
    }
  }

  lemma EnPassantZugOk(s: Stellung, figur: Piece, seite: int)
    requires StellungOk(s) && PieceOk(figur) && IsDiagonal(seite)
    ensures AlleOk(EnPassantZug(s, figur, seite))
  {
    var feld := figur.pos + seite;
    OpferOk(s, if figur.colour == WHITE then feld - 10 else feld + 10);
  }

  lemma BauernZuegeOk(s: Stellung, figur: Piece)
    requires StellungOk(s) && PieceOk(figur)
    ensures AlleOk(BauernZuege(s, figur))
  {
    var v := Vorwaerts(figur.colour);
    BauernVorwaertsOk(s, figur);
    BauernSchlagOk(s, figur, v + 1);
    BauernSchlagOk(s, figur, v - 1);
    EnPassantZugOk(s, figur, v + 1);
    EnPassantZugOk(s, figur, v - 1);
  }

  lemma SlideZuegeOk(s: Stellung, figur: Piece, dirs: seq<int>)
    requires StellungOk(s) && PieceOk(figur) && figur.kind != PAWN && AllSteps(dirs)
    ensures AlleOk(Zuege(s, figur, Slide(s.brett, figur.colour, figur.pos, dirs)))
  {
    SlideSound(s.brett, figur.colour, figur.pos, dirs);
    ZuegeOk(s, figur, Slide(s.brett, figur.colour, figur.pos, dirs));
  }

  lemma RochadeZugOk(s: Stellung, figur: Piece, seite: Seite)
    requires StellungOk(s) && PieceOk(figur) && figur.kind == KING
    ensures AlleOk(RochadeZug(s, figur, seite))
  {
    CastlingSquaresOnBoard(figur.colour, seite);
  }

  lemma KoenigsZuegeOk(s: Stellung, figur: Piece)
    requires StellungOk(s) && PieceOk(figur) && figur.kind == KING
    ensures AlleOk(KoenigsZuege(s, figur))
  {
    OffsetTablesAreSteps();
    var schritte := Zuege(s, figur, Jumps(s.brett, figur.colour, figur.pos, KING_OFFSETS));
    JumpsSound(s.brett, figur.colour, figur.pos, KING_OFFSETS);
    ZuegeOk(s, figur, Jumps(s.brett, figur.colour, figur.pos, KING_OFFSETS));
    RochadeZugOk(s, figur, Kurz);
    RochadeZugOk(s, figur, Lang);
    var rochaden := if !ImSchach(s, figur.colour) then RochadeZug(s, figur, Kurz) + RochadeZug(s, figur, Lang) else [];
    assert AlleOk(rochaden);
    assert KoenigsZuege(s, figur) == schritte + rochaden;
  }

  lemma FigurenZuegeOk(s: Stellung, figur: Piece)
    requires StellungOk(s) && PieceOk(figur)
    ensures AlleOk(FigurenZuege(s, figur))
  {
    OffsetTablesAreSteps();
    if figur.kind == ROOK || figur.kind == QUEEN {
      SlideZuegeOk(s, figur, ROOK_DIRECTIONS);
    }
    if figur.kind == BISHOP || figur.kind == QUEEN {
      SlideZuegeOk(s, figur, BISHOP_DIRECTIONS);
    }
    if figur.kind == KNIGHT {
      JumpsSound(s.brett, figur.colour, figur.pos, KNIGHT_OFFSETS);
      ZuegeOk(s, figur, Jumps(s.brett, figur.colour, figur.pos, KNIGHT_OFFSETS));
    }
    if figur.kind == KING {
      KoenigsZuegeOk(s, figur);
    }
    if figur.kind == PAWN {
      BauernZuegeOk(s, figur);
    }
  }

  lemma {:induction false} PseudoZuegeOk(s: Stellung, farbe: int, n: nat)
    requires StellungOk(s) && n <= |s.figuren|
    ensures AlleOk(PseudoZuege(s, farbe, n))
  {
    if n > 0 {
      PseudoZuegeOk(s, farbe, n - 1);
      var f := s.figuren[n - 1];
      if !f.captured && f.colour == farbe {
        FigurenZuegeOk(s, f);
      }
      assert AlleOk(EigeneZuege(s, farbe, f));
    }
  }

  // ---------------------------------------------------------------------
  // The legality filter

  /** The position istZugLegal examines: the board gets the mover's code on
      the target, the mover moves and a victim on the target is flagged.
      None when there is no mover. */
  function TestStellung(s: Stellung, zug: Zug): (r: Option<Stellung>)
    requires StellungOk(s) && ZugOk(zug)
    ensures r.Some? ==> StellungOk(r.value)
  {
    var brett := s.brett[zug.vonPos := EMPTY][zug.nachPos := zug.art * zug.farbe];
    match ZiehendeFigur(s.figuren, zug.vonPos, zug.farbe)
    case None => None
    case Some(i) =>
      var fs := s.figuren[i := s.figuren[i].(pos := zug.nachPos)];
      var fs2 :=
        if zug.geschlagen.Some? then
          (match GegnerAuf(fs, zug.nachPos, zug.farbe)
           case None => fs
           case Some(j) => fs[j := fs[j].(captured := true)])
        else fs;
      Some(s.(brett := brett, figuren := fs2))
  }

  /** istZugLegal: a mover exists and its king is not in check afterwards. */
  predicate ZugLegal(s: Stellung, zug: Zug)
    requires StellungOk(s) && ZugOk(zug)
  {
    match TestStellung(s, zug)
    case None => false
    case Some(t) => !ImSchach(t, zug.farbe)
  }

  /** `.filter(zug => this.istZugLegal(zug))`. */
  function Legale(s: Stellung, zs: seq<Zug>): seq<Zug>
    requires StellungOk(s) && forall z :: z in zs ==> ZugOk(z)
  {
    if zs == [] then []
    else
      var last := zs[|zs| - 1];
      Legale(s, zs[..|zs| - 1]) + (if ZugLegal(s, last) then [last] else [])
  }

  /** generiereZuege. */
  function LegaleZuege(s: Stellung, farbe: int): seq<Zug>
    requires StellungOk(s)
  {
    PseudoZuegeOk(s, farbe, |s.figuren|);
    Legale(s, PseudoZuege(s, farbe, |s.figuren|))
  }

  lemma {:induction false} LegaleCharacterised(s: Stellung, zs: seq<Zug>)
    requires StellungOk(s) && forall z :: z in zs ==> ZugOk(z)
    ensures forall z :: z in Legale(s, zs) <==> z in zs && ZugLegal(s, z)
  {
    if zs != [] {
      LegaleCharacterised(s, zs[..|zs| - 1]);
      assert zs == zs[..|zs| - 1] + [zs[|zs| - 1]];
    }
  }

  /** generiereZuege returns exactly the generated moves that pass istZugLegal. */
  lemma LegaleZuegeCharacterised(s: Stellung, farbe: int, z: Zug)
    requires StellungOk(s)
    ensures z in LegaleZuege(s, farbe) <==>
      z in PseudoZuege(s, farbe, |s.figuren|) && ZugOk(z) && ZugLegal(s, z)
  {
    PseudoZuegeOk(s, farbe, |s.figuren|);
    LegaleCharacterised(s, PseudoZuege(s, farbe, |s.figuren|));
  }

  /** pruefeSpielStatus for the side to move: (endmatt, patt). */
  function Spielstatus(s: Stellung): (bool, bool)
    requires StellungOk(s)
  {
    var farbe := if s.weissAmZug then WHITE else BLACK;
    var schachmatt := ImSchach(s, farbe) && |LegaleZuege(s, farbe)| == 0;
    var patt := !ImSchach(s, farbe) && |LegaleZuege(s, farbe)| == 0;
    if schachmatt then (true, false) else if patt then (false, true) else (false, false)
  }

  /** Checkmate is check with no legal move, stalemate is no check and no
      legal move, and the two never hold together. */
  lemma SpielstatusBedeutung(s: Stellung)
    requires StellungOk(s)
    ensures var r := Spielstatus(s);
      var farbe := if s.weissAmZug then WHITE else BLACK;
      !(r.0 && r.1) &&
      (r.0 <==> ImSchach(s, farbe) && |LegaleZuege(s, farbe)| == 0) &&
      (r.1 <==> !ImSchach(s, farbe) && |LegaleZuege(s, farbe)| == 0)
  {
  }

  // ---------------------------------------------------------------------
  // Executing a move

  /** `zug.umwandlungsFigur || zug.art`. */
  function EndArt(zug: Zug): int
  {
    if zug.umwandlungsFigur.Some? && zug.umwandlungsFigur.value != 0 then zug.umwandlungsFigur.value
    else zug.art
  }

  /** fuehreRochadeAus: the rook jumps from its corner next to the king, if
      a live rook of the colour stands there. */
  function RochadeAusfuehren(s: Stellung, farbe: int, seite: Seite): (r: Stellung)
    requires StellungOk(s)
    ensures StellungOk(r)
  {
    CastlingSquaresOnBoard(farbe, seite);
    match FigurAuf(s.figuren, ROOK, farbe, TurmStart(farbe, seite))
    case None => s
    case Some(t) =>
      s.(brett := s.brett[TurmStart(farbe, seite) := EMPTY][TurmZiel(farbe, seite) := ROOK * farbe],
         figuren := s.figuren[t := s.figuren[t].(pos := TurmZiel(farbe, seite))])
  }

  /** aktualisiereRochadeRechte: a king move clears both rights of its
      colour; a rook leaving a1/h1/a8/h8 clears that wing; nothing is ever
      granted. */
  function RechteNachZug(r: Rights, zug: Zug): (n: Rights)
    ensures RightsWithin(n, r)
    ensures zug.art == KING && zug.farbe == WHITE ==> !n.whiteKingside && !n.whiteQueenside
    ensures zug.art == KING && zug.farbe != WHITE ==> !n.blackKingside && !n.blackQueenside
    ensures zug.art == ROOK && zug.farbe == WHITE && zug.vonPos == 21 ==> !n.whiteQueenside
    ensures zug.art == ROOK && zug.farbe == WHITE && zug.vonPos == 28 ==> !n.whiteKingside
    ensures zug.art == ROOK && zug.farbe != WHITE && zug.vonPos == 91 ==> !n.blackQueenside
    ensures zug.art == ROOK && zug.farbe != WHITE && zug.vonPos == 98 ==> !n.blackKingside
    ensures zug.art != KING && zug.art != ROOK ==> n == r
    ensures zug.farbe == WHITE ==> n.blackKingside == r.blackKingside && n.blackQueenside == r.blackQueenside
    ensures zug.farbe != WHITE ==> n.whiteKingside == r.whiteKingside && n.whiteQueenside == r.whiteQueenside
  {
    var r1 :=
      if zug.art == KING then
        (if zug.farbe == WHITE then r.(whiteKingside := false, whiteQueenside := false)
         else r.(blackKingside := false, blackQueenside := false))
      else r;
    if zug.art == ROOK then
      if zug.farbe == WHITE then
        var r2 := if zug.vonPos == 21 then r1.(whiteQueenside := false) else r1;
        if zug.vonPos == 28 then r2.(whiteKingside := false) else r2
      else
        var r2 := if zug.vonPos == 91 then r1.(blackQueenside := false) else r1;
        if zug.vonPos == 98 then r2.(blackKingside := false) else r2
    else r1
  }

  /** The board and roster part of zugAusfuehren (before castling). */
  function BrettUndFiguren(s: Stellung, zug: Zug): (r: Stellung)
    requires StellungOk(s) && ZugOk(zug)
    ensures StellungOk(r)
    ensures r.weissAmZug == s.weissAmZug && r.rochadeRechte == s.rochadeRechte
    ensures r.enPassantTarget == s.enPassantTarget
  {
    var brett := s.brett[zug.vonPos := EMPTY][zug.nachPos := EndArt(zug) * zug.farbe];
    match ZiehendeFigur(s.figuren, zug.vonPos, zug.farbe)
    case None => s.(brett := brett)
    case Some(i) =>
      var fs := s.figuren[i := s.figuren[i].(pos := zug.nachPos)];
      var bf :=
        if zug.enPassant && zug.geschlagen.Some? then
          (match LebendeFigurAuf(fs, zug.geschlagen.value.pos)
           case None => (brett, fs)
           case Some(j) => (brett[zug.geschlagen.value.pos := EMPTY], fs[j := fs[j].(captured := true)]))
        else if zug.geschlagen.Some? then
          (match GegnerAuf(fs, zug.nachPos, zug.farbe)
           case None => (brett, fs)
           case Some(j) => (brett, fs[j := fs[j].(captured := true)]))
        else (brett, fs);
      var fs3 :=
        if zug.umwandlungsFigur.Some? && zug.umwandlungsFigur.value != 0
        then bf.1[i := bf.1[i].(kind := zug.umwandlungsFigur.value)]
        else bf.1;
      s.(brett := bf.0, figuren := fs3)
  }

  /** The position after a move: board and roster, the castling rook, the
      rights, the en-passant target and the side to move. */
  function ZugStellung(s: Stellung, zug: Zug): (r: Stellung)
    requires StellungOk(s) && ZugOk(zug)
    ensures StellungOk(r)
  {
    var s1 := BrettUndFiguren(s, zug);
    var s2 := if zug.rochade.Some? then RochadeAusfuehren(s1, zug.farbe, zug.rochade.value) else s1;
    s2.(rochadeRechte := RechteNachZug(s2.rochadeRechte, zug),
        enPassantTarget := if zug.istBauernDoppelschritt then Some(EpFeld(zug)) else None,
        weissAmZug := !s2.weissAmZug)
  }

  /** zugAusfuehren from the board update to the move counter; the status
      flags are still the old ones. */
  function Fortschreiben(z: Zustand, zug: Zug): (r: Zustand)
    requires ZustandOk(z) && ZugOk(zug)
    ensures ZustandOk(r)
  {
    var halbzug := if zug.art == PAWN || zug.geschlagen.Some? then 0 else z.halbzugCounter + 1;
    var vollzug := if zug.farbe == BLACK then z.vollzugCounter + 1 else z.vollzugCounter;
    Zustand(ZugStellung(z.stellung, zug), z.bewertung, z.endmatt, z.patt, halbzug, vollzug, z.zugCounter + 1)
  }

  /** zugAusfuehren after the legality test, up to the history update, with
      the status flags of pruefeSpielStatus. */
  function Ausfuehren(z: Zustand, zug: Zug): (r: Zustand)
    requires ZustandOk(z) && ZugOk(zug)
    ensures ZustandOk(r)
  {
    var n := Fortschreiben(z, zug);
    var status := Spielstatus(n.stellung);
    n.(endmatt := status.0, patt := status.1)
  }

  /** The effects of a move on the side to move, the rights, the en-passant
      target and the counters. */
  lemma AusfuehrenEffekte(z: Zustand, zug: Zug)
    requires ZustandOk(z) && ZugOk(zug)
    ensures var n := Ausfuehren(z, zug);
      n.stellung.weissAmZug == !z.stellung.weissAmZug &&
      RightsWithin(n.stellung.rochadeRechte, z.stellung.rochadeRechte) &&
      (n.stellung.enPassantTarget.Some? <==> zug.istBauernDoppelschritt) &&
      (zug.istBauernDoppelschritt ==> n.stellung.enPassantTarget.value == zug.nachPos - 10 * zug.farbe) &&
      n.halbzugCounter == (if zug.art == PAWN || zug.geschlagen.Some? then 0 else z.halbzugCounter + 1) &&
      n.vollzugCounter == z.vollzugCounter + (if zug.farbe == BLACK then 1 else 0) &&
      n.zugCounter == z.zugCounter + 1 &&
      !(n.endmatt && n.patt)
  {
    var s1 := BrettUndFiguren(z.stellung, zug);
    var s2 := if zug.rochade.Some? then RochadeAusfuehren(s1, zug.farbe, zug.rochade.value) else s1;
    assert s2.rochadeRechte == z.stellung.rochadeRechte && s2.weissAmZug == z.stellung.weissAmZug;
  }

  /** The history bookkeeping of zugAusfuehren: entries after the index are
      cut, the new entry is appended and becomes current, and beyond 50
      entries the oldest is dropped. */
  function Verbuchen(hist: seq<Eintrag>, idx: int, e: Eintrag): (r: (seq<Eintrag>, int))
    requires -1 <= idx < |hist| <= MAX_HISTORIE
    ensures 1 <= |r.0| <= MAX_HISTORIE && r.1 == |r.0| - 1 && r.0[r.1] == e
    ensures forall k :: 0 <= k < r.1 ==> r.0[k] in hist[..idx + 1]
  {
    var historie := if idx < |hist| - 1 then hist[..idx + 1] else hist;
    assert historie == hist[..idx + 1];
    var lang := historie + [e];
    if |lang| > MAX_HISTORIE then (lang[1..], |lang| - 2) else (lang, |lang| - 1)
  }

  /** Verbuchen as the cut to the current index followed by the append. */
  lemma VerbuchenZerlegt(hist: seq<Eintrag>, idx: int, e: Eintrag)
    requires -1 <= idx < |hist| <= MAX_HISTORIE
    ensures var lang := hist[..idx + 1] + [e];
      Verbuchen(hist, idx, e) == (if |lang| > MAX_HISTORIE then (lang[1..], |lang| - 2) else (lang, |lang| - 1))
  {
    if idx == |hist| - 1 {
      assert hist[..idx + 1] == hist;
    }
  }

  /** The game after a move that passes the test, field by field. */
  lemma AusfuehrungGelingt(p: Partie, zug: Zug)
    requires PartieOk(p) && ZugOk(zug) && ZugLegal(p.zustand.stellung, zug)
    ensures var nach := Ausfuehren(p.zustand, zug);
      var e := Eintrag(zug, p.zustand, nach.zugCounter, nach.vollzugCounter);
      var h := Verbuchen(p.zugHistorie, p.historieIndex, e);
      Ausfuehrung(p, zug).1 == Partie(nach, h.0, h.1, Some(e))
  {
  }

  /** zugAusfuehren: false and no change for a move that fails the test;
      otherwise the move is played and entered in the history. */
  function Ausfuehrung(p: Partie, zug: Zug): (r: (bool, Partie))
    requires PartieOk(p) && ZugOk(zug)
    ensures PartieOk(r.1)
    ensures r.0 <==> ZugLegal(p.zustand.stellung, zug)
    ensures !r.0 ==> r.1 == p
    ensures r.0 ==> (|r.1.zugHistorie| >= 1 && r.1.historieIndex == |r.1.zugHistorie| - 1 &&
                     r.1.zugHistorie[r.1.historieIndex].zustandVorZug == p.zustand &&
                     r.1.zugHistorie[r.1.historieIndex].zug == zug)
  {
    if !ZugLegal(p.zustand.stellung, zug) then (false, p)
    else
      var nach := Ausfuehren(p.zustand, zug);
      var eintrag := Eintrag(zug, p.zustand, nach.zugCounter, nach.vollzugCounter);
      var h := Verbuchen(p.zugHistorie, p.historieIndex, eintrag);
      VerbuchenOk(p, eintrag);
      (true, Partie(nach, h.0, h.1, Some(eintrag)))
  }

  /** Entering a well-formed entry keeps every entry of the history well-formed. */
  lemma VerbuchenOk(p: Partie, e: Eintrag)
    requires PartieOk(p) && ZustandOk(e.zustandVorZug) && ZugOk(e.zug)
    ensures var h := Verbuchen(p.zugHistorie, p.historieIndex, e);
      forall k :: 0 <= k < |h.0| ==> ZustandOk(h.0[k].zustandVorZug) && ZugOk(h.0[k].zug)
  {
    var h := Verbuchen(p.zugHistorie, p.historieIndex, e);
    var vorher := p.zugHistorie[..p.historieIndex + 1];
    forall k | 0 <= k < |h.0| ensures ZustandOk(h.0[k].zustandVorZug) && ZugOk(h.0[k].zug) {
      if k < h.1 {
        var f := h.0[k];
        assert f in vorher;
        var m :| 0 <= m < |vorher| && vorher[m] == f;
        assert p.zugHistorie[m] == f;
      }
    }
  }

  /** zugZuruecknehmen: restore the snapshot at the index, step back, and
      recompute the mate and stalemate flags. */
  function Ruecknahme(p: Partie): (r: (bool, Partie))
    requires PartieOk(p)
    ensures PartieOk(r.1)
    ensures r.0 <==> p.historieIndex >= 0
    ensures r.0 ==> r.1.historieIndex == p.historieIndex - 1 && r.1.zugHistorie == p.zugHistorie
    ensures !r.0 ==> r.1 == p
  {
    if |p.zugHistorie| == 0 || p.historieIndex < 0 then (false, p)
    else
      var vor := p.zugHistorie[p.historieIndex].zustandVorZug;
      var status := Spielstatus(vor.stellung);
      (true, p.(zustand := vor.(endmatt := status.0, patt := status.1),
                historieIndex := p.historieIndex - 1))
  }

  /** zugWiederherstellen: step forward, restore that entry's snapshot and
      move only the piece (with its promotion).  The side to move, the
      counters, the captured flag and the castling rook stay as in the
      snapshot. */
  function Wiederherstellung(p: Partie): (r: (bool, Partie))
    requires PartieOk(p)
    ensures PartieOk(r.1)
    ensures r.0 <==> p.historieIndex < |p.zugHistorie| - 1
    ensures r.0 ==> r.1.historieIndex == p.historieIndex + 1 && r.1.zugHistorie == p.zugHistorie
    ensures !r.0 ==> r.1 == p
  {
    if p.historieIndex >= |p.zugHistorie| - 1 then (false, p)
    else
      var idx := p.historieIndex + 1;
      var e := p.zugHistorie[idx];
      var z := e.zustandVorZug;
      (true, p.(zustand := z.(stellung := Nachgezogen(z.stellung, e.zug)), historieIndex := idx))
  }

  /** The board and roster part of zugWiederherstellen: the origin is
      emptied, the (promoted) code is written on the target and the piece
      moves and is promoted; nothing else of the position changes. */
  function Nachgezogen(s: Stellung, zug: Zug): (r: Stellung)
    requires StellungOk(s) && ZugOk(zug)
    ensures StellungOk(r)
  {
    var brett := s.brett[zug.vonPos := EMPTY][zug.nachPos := EndArt(zug) * zug.farbe];
    var fs :=
      match ZiehendeFigur(s.figuren, zug.vonPos, zug.farbe)
      case None => s.figuren
      case Some(i) =>
        var moved := s.figuren[i].(pos := zug.nachPos);
        s.figuren[i := if zug.umwandlungsFigur.Some? && zug.umwandlungsFigur.value != 0
                       then moved.(kind := zug.umwandlungsFigur.value) else moved];
    s.(brett := brett, figuren := fs)
  }

  /** Undo right after a successful move gives back the board, roster, side
      to move, rights, en-passant target and counters from before it. */
  lemma RuecknahmeNachAusfuehrung(p: Partie, zug: Zug)
    requires PartieOk(p) && ZugOk(zug)
    requires Ausfuehrung(p, zug).0
    ensures var q := Ruecknahme(Ausfuehrung(p, zug).1);
      q.0 &&
      q.1.zustand.stellung == p.zustand.stellung &&
      q.1.zustand.bewertung == p.zustand.bewertung &&
      q.1.zustand.halbzugCounter == p.zustand.halbzugCounter &&
      q.1.zustand.vollzugCounter == p.zustand.vollzugCounter &&
      q.1.zustand.zugCounter == p.zustand.zugCounter
  {
    var m := Ausfuehrung(p, zug).1;
    assert m.zugHistorie[m.historieIndex].zustandVorZug == p.zustand;
  }

  /** Redo does not hand the move to the other side: the side to move is
      the one stored in the snapshot before the move. */
  lemma WiederherstellungOhneSeitenwechsel(p: Partie)
    requires PartieOk(p) && p.historieIndex < |p.zugHistorie| - 1
    ensures var r := Wiederherstellung(p);
      r.0 && r.1.historieIndex == p.historieIndex + 1 &&
      r.1.zustand.stellung.weissAmZug == p.zugHistorie[p.historieIndex + 1].zustandVorZug.stellung.weissAmZug &&
      r.1.zustand.zugCounter == p.zugHistorie[p.historieIndex + 1].zustandVorZug.zugCounter
  {
  }

  // ---------------------------------------------------------------------
  // The start position (initialisiereFiguren)

  /** The sixteen pieces other than pawns, in the order they are added. */
  const OFFIZIERE: seq<Piece> := [
    Piece(KING, BLACK, 95, false), Piece(KING, WHITE, 25, false),
    Piece(QUEEN, BLACK, 94, false), Piece(QUEEN, WHITE, 24, false),
    Piece(ROOK, BLACK, 91, false), Piece(ROOK, BLACK, 98, false),
    Piece(ROOK, WHITE, 21, false), Piece(ROOK, WHITE, 28, false),
    Piece(KNIGHT, BLACK, 92, false), Piece(KNIGHT, BLACK, 97, false),
    Piece(KNIGHT, WHITE, 22, false), Piece(KNIGHT, WHITE, 27, false),
    Piece(BISHOP, BLACK, 93, false), Piece(BISHOP, BLACK, 96, false),
    Piece(BISHOP, WHITE, 23, false), Piece(BISHOP, WHITE, 26, false)]

  /** The pawns of files 1..n, black then white for each file. */
  function Bauernpaare(n: nat): (fs: seq<Piece>)
    ensures |fs| == 2 * n
  {
    if n == 0 then []
    else Bauernpaare(n - 1) + [Piece(PAWN, BLACK, 80 + n, false), Piece(PAWN, WHITE, 30 + n, false)]
  }

  /** The number of files, one pawn pair each. */
  const LINIEN: nat := 8

  function StartFiguren(): seq<Piece>
  {
    OFFIZIERE + Bauernpaare(LINIEN)
  }

  /** The board after fuegeFigurHinzu wrote each piece's code, in order
      (a square outside the array is not written). */
  function Aufstellen(b: seq<int>, fs: seq<Piece>): (r: seq<int>)
    requires |b| == BOARD_SIZE
    ensures |r| == BOARD_SIZE
  {
    if fs == [] then b
    else
      var last := fs[|fs| - 1];
      var davor := Aufstellen(b, fs[..|fs| - 1]);
      if 0 <= last.pos < BOARD_SIZE then davor[last.pos := last.kind * last.colour] else davor
  }

  /** Placing one more piece writes its code over what the others left. */
  lemma AufstellenAnhang(b: seq<int>, fs: seq<Piece>, f: Piece)
    requires |b| == BOARD_SIZE && 0 <= f.pos < BOARD_SIZE
    ensures Aufstellen(b, fs + [f]) == Aufstellen(b, fs)[f.pos := f.kind * f.colour]
  {
    assert (fs + [f])[..|fs|] == fs;
  }

  /** A square no piece is placed on keeps its old content. */
  lemma {:induction false} AufstellenUnberuehrt(b: seq<int>, fs: seq<Piece>, p: int)
    requires |b| == BOARD_SIZE && forall i :: 0 <= i < |fs| ==> IsValidPosition(fs[i].pos)
    requires 0 <= p < BOARD_SIZE && forall i :: 0 <= i < |fs| ==> fs[i].pos != p
    ensures Aufstellen(b, fs)[p] == b[p]
  {
    if fs != [] {
      var init := fs[..|fs| - 1];
      assert forall i :: 0 <= i < |init| ==> init[i] == fs[i];
      AufstellenUnberuehrt(b, init, p);
    }
  }

  /** A square holds the code of the last piece placed on it. */
  lemma {:induction false} AufstellenZelle(b: seq<int>, fs: seq<Piece>, p: int)
    requires |b| == BOARD_SIZE && forall i :: 0 <= i < |fs| ==> IsValidPosition(fs[i].pos)
    requires 0 <= p < BOARD_SIZE
    ensures forall i :: 0 <= i < |fs| && fs[i].pos == p && (forall j :: i < j < |fs| ==> fs[j].pos != p) ==>
      Aufstellen(b, fs)[p] == fs[i].kind * fs[i].colour
  {
    if fs != [] {
      var init := fs[..|fs| - 1];
      assert forall i :: 0 <= i < |init| ==> init[i] == fs[i];
      AufstellenZelle(b, init, p);
      forall i | 0 <= i < |fs| - 1 && fs[i].pos == p && (forall j :: i < j < |fs| ==> fs[j].pos != p)
        ensures Aufstellen(b, fs)[p] == fs[i].kind * fs[i].colour
      {
        assert forall j :: i < j < |init| ==> init[j].pos != p;
      }
    }
  }

  /** Board and roster agree: every live piece's code is on its square, and
      every occupied playable square carries a live piece. */
  predicate Synchron(b: seq<int>, fs: seq<Piece>)
    requires |b| == BOARD_SIZE && RosterOk(fs)
  {
    (forall i :: 0 <= i < |fs| && !fs[i].captured ==> b[fs[i].pos] == fs[i].kind * fs[i].colour) &&
    (forall p :: 0 <= p < BOARD_SIZE && IsValidPosition(p) && b[p] != EMPTY ==>
       exists i :: 0 <= i < |fs| && !fs[i].captured && fs[i].pos == p)
  }

  predicate VerschiedenePositionen(fs: seq<Piece>)
  {
    forall i, j :: 0 <= i < j < |fs| ==> fs[i].pos != fs[j].pos
  }

  lemma OffiziereAufGrundreihen()
    ensures forall i :: 0 <= i < 16 ==>
      (PieceOk(OFFIZIERE[i]) && !OFFIZIERE[i].captured && (OFFIZIERE[i].pos / 10 == 2 || OFFIZIERE[i].pos / 10 == 9))
    ensures VerschiedenePositionen(OFFIZIERE)
  {
  }

  /** The first n pawn pairs: live pawns, the black ones on 81 .. 80 + n and
      the white ones on 31 .. 30 + n, no two on one square. */
  lemma {:induction false} BauernpaareFelder(n: nat)
    requires n <= 8
    ensures forall i :: 0 <= i < |Bauernpaare(n)| ==> BauerImBereich(Bauernpaare(n)[i], n)
    ensures VerschiedenePositionen(Bauernpaare(n))
  {
    if n > 0 {
      BauernpaareFelder(n - 1);
      var a, fs := Bauernpaare(n - 1), Bauernpaare(n);
      assert fs == a + [Piece(PAWN, BLACK, 80 + n, false), Piece(PAWN, WHITE, 30 + n, false)];
      forall i | 0 <= i < |fs| ensures BauerImBereich(fs[i], n) {
        if i < |a| {
          assert fs[i] == a[i] && BauerImBereich(a[i], n - 1);
        }
      }
      forall i, j | 0 <= i < j < |fs| ensures fs[i].pos != fs[j].pos {
        assert j >= |a| ==> fs[j].pos == (if j == |a| then 80 + n else 30 + n);
        if j < |a| {
          assert fs[i] == a[i] && fs[j] == a[j];
        } else if i < |a| {
          assert fs[i] == a[i] && BauerImBereich(a[i], n - 1);
        }
      }
    }
  }

  predicate BauerImBereich(f: Piece, n: int)
  {
    f.kind == PAWN && !f.captured &&
    ((f.colour == BLACK && 81 <= f.pos <= 80 + n) || (f.colour == WHITE && 31 <= f.pos <= 30 + n))
  }

  lemma BauernAufStartreihen()
    ensures forall i :: 0 <= i < 16 ==>
      (PieceOk(Bauernpaare(LINIEN)[i]) && !Bauernpaare(LINIEN)[i].captured && (Bauernpaare(LINIEN)[i].pos / 10 == 3 || Bauernpaare(LINIEN)[i].pos / 10 == 8))
    ensures VerschiedenePositionen(Bauernpaare(LINIEN))
  {
    BauernpaareFelder(LINIEN);
  }

  lemma StartFigurenVerschieden()
    ensures RosterOk(StartFiguren()) && |StartFiguren()| == 32
    ensures VerschiedenePositionen(StartFiguren())
    ensures forall i :: 0 <= i < 32 ==> !StartFiguren()[i].captured
  {
    OffiziereAufGrundreihen();
    BauernAufStartreihen();
    var fs, bp := StartFiguren(), Bauernpaare(LINIEN);
    assert forall i :: 0 <= i < 16 ==> fs[i] == OFFIZIERE[i];
    assert forall i :: 16 <= i < 32 ==> fs[i] == bp[i - 16];
    forall i, j | 0 <= i < j < 32 ensures fs[i].pos != fs[j].pos {
      if j < 16 {
      } else if i >= 16 {
        assert fs[i] == bp[i - 16] && fs[j] == bp[j - 16];
      } else {
        assert fs[j] == bp[j - 16];
      }
    }
  }

  /** The game the constructor sets up is well formed. */
  lemma StartPartieOk(b: seq<int>)
    requires IsEmptyMailbox(b)
    ensures PartieOk(StartPartie(b))
  {
    StartStellung(b);
  }

  /** The game after the constructor: the start position, white to move,
      no result, counters 0/1/0 and an empty history. */
  function StartPartie(b: seq<int>): Partie
    requires |b| == BOARD_SIZE
  {
    Partie(Zustand(Stellung(Aufstellen(b, StartFiguren()), StartFiguren(), true, ALL_RIGHTS, None), 0, false, false, 0, 1, 0),
           [], -1, None)
  }

  /** The start position: the 32 pieces on distinct playable squares, each
      square carrying its piece's code, every other playable square EMPTY and
      the border DUMMY; board and roster are in sync. */
  lemma StartStellung(b: seq<int>)
    requires IsEmptyMailbox(b)
    ensures RosterOk(StartFiguren()) && Bordered(Aufstellen(b, StartFiguren()))
    ensures Synchron(Aufstellen(b, StartFiguren()), StartFiguren())
    ensures forall p :: 0 <= p < BOARD_SIZE && (forall i :: 0 <= i < 32 ==> StartFiguren()[i].pos != p) ==>
      Aufstellen(b, StartFiguren())[p] == (if IsValidPosition(p) then EMPTY else DUMMY)
  {
    StartFigurenVerschieden();
    var fs := StartFiguren();
    var a := Aufstellen(b, fs);
    forall p | 0 <= p < BOARD_SIZE
      ensures (forall i :: 0 <= i < 32 ==> fs[i].pos != p) ==> a[p] == b[p]
      ensures forall i :: 0 <= i < 32 && fs[i].pos == p ==> a[p] == fs[i].kind * fs[i].colour
    {
      AufstellenZelle(b, fs, p);
      if forall i :: 0 <= i < 32 ==> fs[i].pos != p {
        AufstellenUnberuehrt(b, fs, p);
      }
    }
    forall p | 0 <= p < BOARD_SIZE && IsValidPosition(p) && a[p] != EMPTY
      ensures exists i :: 0 <= i < 32 && !fs[i].captured && fs[i].pos == p
    {
      if forall i :: 0 <= i < 32 ==> fs[i].pos != p {
        assert false;
      }
    }
  }


  // ---------------------------------------------------------------------
  // Zobrist hashing (berechneZobristHash) over a given key table.  `^=`
  // combines the keys bit by bit; a key and a hash are the unsigned
  // reading of their 32-bit patterns.

  /** Bitwise exclusive or of two naturals, lowest bit first. */
  function Xor(a: nat, b: nat): nat
    decreases a
  {
    if a == 0 then b
    else if b == 0 then a
    else 2 * Xor(a / 2, b / 2) + (if a % 2 == b % 2 then 0 else 1)
  }

  function Pow2(n: nat): (r: nat)
    ensures r >= 1
  {
    if n == 0 then 1 else 2 * Pow2(n - 1)
  }

  /** The lowest bit of `a ^ b` is the sum of their lowest bits mod 2,
      and the remaining bits are the `^` of the remaining bits. */
  lemma XorBits(a: nat, b: nat)
    ensures Xor(a, b) % 2 == (a % 2 + b % 2) % 2
    ensures Xor(a, b) / 2 == Xor(a / 2, b / 2)
  {
    if a == 0 {
      assert Xor(a / 2, b / 2) == b / 2;
    } else if b == 0 {
      assert Xor(a / 2, b / 2) == a / 2 by {
        if a / 2 != 0 { }
      }
    }
  }

  lemma XorNull(a: nat)
    ensures Xor(a, 0) == a && Xor(0, a) == a
  {
  }

  lemma {:induction false} XorKomm(a: nat, b: nat)
    ensures Xor(a, b) == Xor(b, a)
    decreases a + b
  {
    if a != 0 && b != 0 {
      XorKomm(a / 2, b / 2);
    }
  }

  lemma {:induction false} XorSelbst(a: nat)
    ensures Xor(a, a) == 0
  {
    if a != 0 {
      XorSelbst(a / 2);
    }
  }

  lemma {:induction false} XorAssoc(a: nat, b: nat, c: nat)
    ensures Xor(Xor(a, b), c) == Xor(a, Xor(b, c))
    decreases a + b + c
  {
    if a != 0 && b != 0 && c != 0 {
      var x, y := Xor(Xor(a, b), c), Xor(a, Xor(b, c));
      XorBits(Xor(a, b), c);
      XorBits(a, b);
      XorBits(a, Xor(b, c));
      XorBits(b, c);
      XorAssoc(a / 2, b / 2, c / 2);
      assert x % 2 == y % 2 && x / 2 == y / 2;
    } else if b == 0 {
    } else if c == 0 {
    }
  }

  /** Two keys XORed into a hash one after the other may be swapped. */
  lemma XorTausch(h: nat, a: nat, b: nat)
    ensures Xor(Xor(h, a), b) == Xor(Xor(h, b), a)
  {
    XorAssoc(h, a, b);
    XorKomm(a, b);
    XorAssoc(h, b, a);
  }

  /** XORing the same key in twice leaves the hash as it was. */
  lemma XorZweimal(h: nat, k: nat)
    ensures Xor(Xor(h, k), k) == h
  {
    XorAssoc(h, k, k);
    XorSelbst(k);
    XorNull(h);
  }

  /** `^` of two n-bit patterns is an n-bit pattern. */
  lemma {:induction false} XorBreite(a: nat, b: nat, n: nat)
    requires a < Pow2(n) && b < Pow2(n)
    ensures Xor(a, b) < Pow2(n)
  {
    if n > 0 && a != 0 && b != 0 {
      XorBreite(a / 2, b / 2, n - 1);
    }
  }

  const WORT := Pow2(32)

  datatype ZobristKeys = ZobristKeys(figuren: (int, int) -> nat, schwarzAmZug: nat,
                                     weissKurz: nat, weissLang: nat,
                                     schwarzKurz: nat, schwarzLang: nat,
                                     enPassant: int -> nat)

  /** Every key is a 32-bit pattern, as Math.floor(Math.random() * 2**32) draws them. */
  ghost predicate KeysOk(keys: ZobristKeys)
  {
    && (forall p, c :: keys.figuren(p, c) < WORT)
    && (forall p :: keys.enPassant(p) < WORT)
    && keys.schwarzAmZug < WORT
    && keys.weissKurz < WORT && keys.weissLang < WORT
    && keys.schwarzKurz < WORT && keys.schwarzLang < WORT
  }

  /** The key a roster entry contributes: its (square, code) key when live. */
  function FigurSchluessel(keys: ZobristKeys, f: Piece): nat
  {
    if f.captured then 0 else keys.figuren(f.pos, f.kind * f.colour)
  }

  /** The roster loop: the keys of the live pieces, in roster order. */
  function FigurenHash(keys: ZobristKeys, fs: seq<Piece>): nat
  {
    if fs == [] then 0
    else Xor(FigurenHash(keys, fs[..|fs| - 1]), FigurSchluessel(keys, fs[|fs| - 1]))
  }

  /** `k` when the condition holds, else 0 (a key XORed in or not). */
  function Wenn(c: bool, k: nat): nat
  {
    if c then k else 0
  }

  function EpSchluessel(keys: ZobristKeys, ep: Option<int>): nat
  {
    if ep.Some? then keys.enPassant(ep.value) else 0
  }

  /** The hash: the live pieces' keys, then the black-to-move key, the key
      of each right held and the en-passant key, in that order. */
  function ZobristHash(keys: ZobristKeys, s: Stellung): nat
  {
    var r := s.rochadeRechte;
    var h0 := Xor(FigurenHash(keys, s.figuren), Wenn(!s.weissAmZug, keys.schwarzAmZug));
    var h1 := Xor(Xor(Xor(Xor(h0, Wenn(r.whiteKingside, keys.weissKurz)),
                          Wenn(r.whiteQueenside, keys.weissLang)),
                      Wenn(r.blackKingside, keys.schwarzKurz)),
                  Wenn(r.blackQueenside, keys.schwarzLang));
    Xor(h1, EpSchluessel(keys, s.enPassantTarget))
  }

  /** With 32-bit keys the hash is a 32-bit pattern. */
  lemma ZobristBreite(keys: ZobristKeys, s: Stellung)
    requires KeysOk(keys)
    ensures ZobristHash(keys, s) < WORT
  {
    var r := s.rochadeRechte;
    var f := FigurenHash(keys, s.figuren);
    FigurenBreite(keys, s.figuren);
    var h0 := Wort(f, Wenn(!s.weissAmZug, keys.schwarzAmZug));
    var h1 := Wort(h0, Wenn(r.whiteKingside, keys.weissKurz));
    var h2 := Wort(h1, Wenn(r.whiteQueenside, keys.weissLang));
    var h3 := Wort(h2, Wenn(r.blackKingside, keys.schwarzKurz));
    var h4 := Wort(h3, Wenn(r.blackQueenside, keys.schwarzLang));
    EpBreite(keys, s.enPassantTarget);
    var h5 := Wort(h4, EpSchluessel(keys, s.enPassantTarget));
  }

  lemma EpBreite(keys: ZobristKeys, ep: Option<int>)
    requires KeysOk(keys)
    ensures EpSchluessel(keys, ep) < WORT
  {
    if ep.Some? {
      var v := ep.value;
      assert keys.enPassant(v) < WORT;
    }
  }

  /** One `^=` step on 32-bit patterns, returning the new hash. */
  lemma Wort(h: nat, k: nat) returns (r: nat)
    requires h < WORT && k < WORT
    ensures r == Xor(h, k) && r < WORT
  {
    XorBreite(h, k, 32);
    r := Xor(h, k);
  }

  lemma {:induction false} FigurenBreite(keys: ZobristKeys, fs: seq<Piece>)
    requires KeysOk(keys)
    ensures FigurenHash(keys, fs) < WORT
  {
    if fs != [] {
      var n := |fs| - 1;
      FigurenBreite(keys, fs[..n]);
      XorBreite(FigurenHash(keys, fs[..n]), FigurSchluessel(keys, fs[n]), 32);
    }
  }

  lemma {:induction false} FigurenHashAppend(keys: ZobristKeys, a: seq<Piece>, b: seq<Piece>)
    ensures FigurenHash(keys, a + b) == Xor(FigurenHash(keys, a), FigurenHash(keys, b))
  {
    if b == [] {
      assert a + b == a;
      XorNull(FigurenHash(keys, a));
    } else {
      var init, x := b[..|b| - 1], b[|b| - 1];
      FigurenHashAppend(keys, a, init);
      var ab := a + b;
      assert ab[..|ab| - 1] == a + init && ab[|ab| - 1] == x;
      XorAssoc(FigurenHash(keys, a), FigurenHash(keys, init), FigurSchluessel(keys, x));
    }
  }

  /** Flagging one live piece as captured removes exactly its key. */
  lemma {:induction false} FigurenHashSchlag(keys: ZobristKeys, fs: seq<Piece>, i: int)
    requires 0 <= i < |fs| && !fs[i].captured
    ensures FigurenHash(keys, fs[i := fs[i].(captured := true)]) ==
            Xor(FigurenHash(keys, fs), keys.figuren(fs[i].pos, fs[i].kind * fs[i].colour))
  {
    var k := keys.figuren(fs[i].pos, fs[i].kind * fs[i].colour);
    var gs := fs[i := fs[i].(captured := true)];
    var n := |fs| - 1;
    if i == n {
      assert gs[..n] == fs[..n];
      XorNull(FigurenHash(keys, fs[..n]));
      XorZweimal(FigurenHash(keys, fs[..n]), k);
    } else {
      assert gs[..n] == fs[..n][i := fs[i].(captured := true)];
      FigurenHashSchlag(keys, fs[..n], i);
      XorTausch(FigurenHash(keys, fs[..n]), k, FigurSchluessel(keys, fs[n]));
    }
  }

  /** Captured roster entries do not enter the hash. */
  lemma {:induction false} ZobristIgnoriertGeschlagene(keys: ZobristKeys, fs: seq<Piece>, f: Piece)
    requires f.captured
    ensures FigurenHash(keys, fs + [f]) == FigurenHash(keys, fs)
  {
    assert (fs + [f])[..|fs + [f]| - 1] == fs;
    XorNull(FigurenHash(keys, fs));
  }

  /** Handing the move to the other side changes the hash by exactly the
      black-to-move key, so doing it twice gives the hash back. */
  lemma ZobristSeitenwechsel(keys: ZobristKeys, s: Stellung)
    ensures ZobristHash(keys, s.(weissAmZug := !s.weissAmZug)) == Xor(ZobristHash(keys, s), keys.schwarzAmZug)
  {
    var t := s.(weissAmZug := !s.weissAmZug);
    var r, k := s.rochadeRechte, keys.schwarzAmZug;
    var f := FigurenHash(keys, s.figuren);
    var a, b, c, d, e := Wenn(r.whiteKingside, keys.weissKurz), Wenn(r.whiteQueenside, keys.weissLang),
                         Wenn(r.blackKingside, keys.schwarzKurz), Wenn(r.blackQueenside, keys.schwarzLang),
                         EpSchluessel(keys, s.enPassantTarget);
    var x, y := Wenn(!s.weissAmZug, k), Wenn(!t.weissAmZug, k);
    assert Xor(f, y) == Xor(Xor(f, x), k) by {
      if s.weissAmZug {
        XorNull(f);
      } else {
        XorZweimal(f, k);
        XorNull(f);
      }
    }
    XorTausch(Xor(f, x), k, a);
    XorTausch(Xor(Xor(f, x), a), k, b);
    XorTausch(Xor(Xor(Xor(f, x), a), b), k, c);
    XorTausch(Xor(Xor(Xor(Xor(f, x), a), b), c), k, d);
    XorTausch(Xor(Xor(Xor(Xor(Xor(f, x), a), b), c), d), k, e);
  }
}
