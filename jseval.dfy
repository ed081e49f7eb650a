/** The integer evaluation of the JS engine (bewerteStellung and the terms it
    adds up, docs/js/chessteg.js) as functions of the board and the roster.
    The class in JsEngine runs the source's loops and is proved to compute
    these functions; the lemmas here say what the terms mean. */
module JsEval {
  import opened Common
  import opened JsModel

  /** getFigurWert: the material value of a kind, 0 for an unknown kind. */
  function FigurWert(art: int): (w: int)
    ensures w >= 0
    ensures w == 0 <==> art !in {PAWN, KNIGHT, BISHOP, ROOK, QUEEN, KING}
  {
    if art == PAWN then 100
    else if art == KNIGHT then 320
    else if art == BISHOP then 330
    else if art == ROOK then 500
    else if art == QUEEN then 900
    else if art == KING then 20000
    else 0
  }

  /** `farbe === WEISS ? 1 : -1`. */
  function Vorzeichen(farbe: int): int
  {
    if farbe == WHITE then 1 else -1
  }

  // ---------------------------------------------------------------------
  // Roster sums.  Every roster term loops over figurenListe in order and
  // adds one contribution per entry.

  function Summe(fs: seq<Piece>, beitrag: Piece -> int): int
  {
    if fs == [] then 0 else Summe(fs[..|fs| - 1], beitrag) + beitrag(fs[|fs| - 1])
  }

  lemma SummeSchritt(fs: seq<Piece>, i: int, beitrag: Piece -> int)
    requires 0 <= i < |fs|
    ensures Summe(fs[..i + 1], beitrag) == Summe(fs[..i], beitrag) + beitrag(fs[i])
  {
    assert fs[..i + 1][..i] == fs[..i];
  }

  lemma {:induction false} SummeVerkettung(a: seq<Piece>, b: seq<Piece>, beitrag: Piece -> int)
    ensures Summe(a + b, beitrag) == Summe(a, beitrag) + Summe(b, beitrag)
  {
    if b == [] {
      assert a + b == a;
    } else {
      var ab := a + b;
      assert ab[..|ab| - 1] == a + b[..|b| - 1];
      SummeVerkettung(a, b[..|b| - 1], beitrag);
    }
  }

  // ---------------------------------------------------------------------
  // Colour mirror: every piece changes colour and its row r becomes 11 - r.

  function Spiegelfeld(pos: int): (q: int)
    ensures IsValidPosition(pos) ==> IsValidPosition(q) && q / 10 == 11 - pos / 10 && q % 10 == pos % 10
  {
    (11 - pos / 10) * 10 + pos % 10
  }

  /** Mirroring twice gives the square back. */
  lemma SpiegelfeldZweimal(pos: int)
    requires IsValidPosition(pos)
    ensures Spiegelfeld(Spiegelfeld(pos)) == pos
  {
  }

  function Gespiegelt(f: Piece): Piece
  {
    f.(colour := -f.colour, pos := Spiegelfeld(f.pos))
  }

  function Spiegeln(fs: seq<Piece>): (gs: seq<Piece>)
    ensures |gs| == |fs|
    ensures forall i :: 0 <= i < |fs| ==> gs[i] == Gespiegelt(fs[i])
  {
    if fs == [] then [] else Spiegeln(fs[..|fs| - 1]) + [Gespiegelt(fs[|fs| - 1])]
  }

  /** A roster sum whose contribution changes sign under the mirror changes
      sign as a whole. */
  lemma {:induction false} SummeGespiegelt(fs: seq<Piece>, beitrag: Piece -> int)
    requires forall i :: 0 <= i < |fs| ==> beitrag(Gespiegelt(fs[i])) == -beitrag(fs[i])
    ensures Summe(Spiegeln(fs), beitrag) == -Summe(fs, beitrag)
  {
    if fs != [] {
      var n := |fs| - 1;
      SummeGespiegelt(fs[..n], beitrag);
      assert Spiegeln(fs)[..n] == Spiegeln(fs[..n]);
    }
  }

  // ---------------------------------------------------------------------
  // einfacheMaterialbewertung

  function MaterialBeitrag(f: Piece): int
  {
    if f.captured then 0
    else if f.colour == WHITE then FigurWert(f.kind) else -FigurWert(f.kind)
  }

  function Material(fs: seq<Piece>): int
  {
    Summe(fs, MaterialBeitrag)
  }

  /** Swapping the colours of all pieces (and mirroring the rows) negates
      the material balance. */
  lemma MaterialGespiegelt(fs: seq<Piece>)
    requires RosterOk(fs)
    ensures Material(Spiegeln(fs)) == -Material(fs)
  {
    SummeGespiegelt(fs, MaterialBeitrag);
  }

  /** A roster whose entries come in pairs of the same kind and opposite
      colour has a balance of 0. */
  lemma {:induction false} MaterialPaare(n: nat)
    ensures Material(Bauernpaare(n)) == 0
  {
    if n > 0 {
      var ps := Bauernpaare(n - 1);
      var paar := [Piece(PAWN, BLACK, 80 + n, false), Piece(PAWN, WHITE, 30 + n, false)];
      MaterialPaare(n - 1);
      SummeVerkettung(ps, paar, MaterialBeitrag);
      SummeSchritt(paar, 0, MaterialBeitrag);
      SummeSchritt(paar, 1, MaterialBeitrag);
      assert paar[..2] == paar;
    }
  }

  /** Kings, queens and rooks of the initial roster balance out. */
  lemma MaterialSchwereFiguren()
    ensures Summe(OFFIZIERE[..8], MaterialBeitrag) == 0
  {
    var o := OFFIZIERE[..8];
    SummeSchritt(o, 0, MaterialBeitrag);
    SummeSchritt(o, 1, MaterialBeitrag);
    SummeSchritt(o, 2, MaterialBeitrag);
    SummeSchritt(o, 3, MaterialBeitrag);
    SummeSchritt(o, 4, MaterialBeitrag);
    SummeSchritt(o, 5, MaterialBeitrag);
    SummeSchritt(o, 6, MaterialBeitrag);
    SummeSchritt(o, 7, MaterialBeitrag);
    assert o[..8] == o;
  }

  /** Knights and bishops of the initial roster balance out. */
  lemma MaterialLeichteFiguren()
    ensures Summe(OFFIZIERE[8..], MaterialBeitrag) == 0
  {
    var o := OFFIZIERE[8..];
    SummeSchritt(o, 0, MaterialBeitrag);
    SummeSchritt(o, 1, MaterialBeitrag);
    SummeSchritt(o, 2, MaterialBeitrag);
    SummeSchritt(o, 3, MaterialBeitrag);
    SummeSchritt(o, 4, MaterialBeitrag);
    SummeSchritt(o, 5, MaterialBeitrag);
    SummeSchritt(o, 6, MaterialBeitrag);
    SummeSchritt(o, 7, MaterialBeitrag);
    assert o[..8] == o;
  }

  /** The initial roster is balanced. */
  lemma MaterialStart()
    ensures Material(StartFiguren()) == 0
  {
    MaterialSchwereFiguren();
    MaterialLeichteFiguren();
    SummeVerkettung(OFFIZIERE[..8], OFFIZIERE[8..], MaterialBeitrag);
    assert OFFIZIERE[..8] + OFFIZIERE[8..] == OFFIZIERE;
    MaterialPaare(LINIEN);
    SummeVerkettung(OFFIZIERE, Bauernpaare(LINIEN), MaterialBeitrag);
  }

  // ---------------------------------------------------------------------
  // bewertePositionen: centre occupation, development and space.

  /** The squares bewertePositionen, bewerteLaeufer, bewerteSpringer and
      bewerteBauer treat as the centre (as written: d3, e3, d4, e4). */
  const ZENTRUM: seq<int> := [44, 45, 54, 55]
  const LAEUFER_FELDER: seq<int> := [44, 45, 54, 55, 33, 36, 63, 66]
  const SPRINGER_FELDER: seq<int> := [44, 45, 54, 55, 33, 34, 35, 36, 43, 46, 53, 56, 63, 64, 65, 66]

  /** An occupied centre square counts +15 for a white and -15 for a black piece. */
  function ZentrumsBeitrag(v: int): int
  {
    if v != EMPTY && v != DUMMY then (if v > 0 then 15 else -15) else 0
  }

  function FelderSumme(b: seq<int>, felder: seq<int>): int
    requires forall i :: 0 <= i < |felder| ==> 0 <= felder[i] < |b|
  {
    if felder == [] then 0
    else FelderSumme(b, felder[..|felder| - 1]) + ZentrumsBeitrag(b[felder[|felder| - 1]])
  }

  /** The sum over four squares, written out. */
  lemma FelderVier(b: seq<int>, f: seq<int>)
    requires |f| == 4 && forall i :: 0 <= i < 4 ==> 0 <= f[i] < |b|
    ensures FelderSumme(b, f) == ZentrumsBeitrag(b[f[0]]) + ZentrumsBeitrag(b[f[1]]) +
                                 ZentrumsBeitrag(b[f[2]]) + ZentrumsBeitrag(b[f[3]])
  {
    var f1, f2, f3 := f[..1], f[..2], f[..3];
    assert f1[..0] == [] && f2[..1] == f1 && f3[..2] == f2 && f[..3] == f3;
    assert FelderSumme(b, f1) == ZentrumsBeitrag(b[f[0]]);
    assert FelderSumme(b, f2) == FelderSumme(b, f1) + ZentrumsBeitrag(b[f[1]]);
    assert FelderSumme(b, f3) == FelderSumme(b, f2) + ZentrumsBeitrag(b[f[2]]);
  }

  function Zentrum(b: seq<int>): int
    requires |b| == BOARD_SIZE
  {
    FelderSumme(b, ZENTRUM)
  }

  /** The board with colours swapped and rows mirrored (the border stays). */
  function SpiegelBrett(b: seq<int>): (c: seq<int>)
    requires |b| == BOARD_SIZE
    ensures |c| == BOARD_SIZE
  {
    seq(BOARD_SIZE, p requires 0 <= p < BOARD_SIZE =>
      var v := b[Spiegelfeld(p)]; if v == DUMMY then DUMMY else -v)
  }

  /** Cells hold EMPTY, DUMMY or a signed piece code, never -DUMMY. */
  predicate Zellen(b: seq<int>)
  {
    forall p :: 0 <= p < |b| ==> b[p] != -DUMMY
  }

  /** A board with one white pawn on 44 (d3) and nothing else. */
  function BauerAufD3(): (b: seq<int>)
    ensures |b| == BOARD_SIZE
  {
    seq(BOARD_SIZE, p => if p == 44 then PAWN else if IsValidPosition(p) then EMPTY else DUMMY)
  }

  /** As written the centre term is not colour-symmetric: a white pawn on
      d3 scores +15, the mirrored black pawn on d6 scores nothing. */
  lemma ZentrumAsymmetrisch()
    ensures Zellen(BauerAufD3())
    ensures Zentrum(BauerAufD3()) == 15 && Zentrum(SpiegelBrett(BauerAufD3())) == 0
  {
    var b := BauerAufD3();
    var c := SpiegelBrett(b);
    assert b[44] == PAWN && b[45] == EMPTY && b[54] == EMPTY && b[55] == EMPTY;
    assert c[44] == -b[74] && c[45] == -b[75] && c[54] == -b[64] && c[55] == -b[65];
    FelderVier(b, ZENTRUM);
    FelderVier(c, ZENTRUM);
  }

  /** The centre the source's comment names: d4, e4, d5, e5. */
  const ZENTRUM_GEMEINT: seq<int> := [54, 55, 64, 65]

  function ZentrumGemeint(b: seq<int>): int
    requires |b| == BOARD_SIZE
  {
    FelderSumme(b, ZENTRUM_GEMEINT)
  }

  lemma ZentrumsBeitragGespiegelt(v: int)
    requires v != -DUMMY
    ensures ZentrumsBeitrag(if v == DUMMY then DUMMY else -v) == -ZentrumsBeitrag(v)
  {
  }

  /** With the intended squares the centre term is colour-symmetric. */
  lemma ZentrumGemeintGespiegelt(b: seq<int>)
    requires |b| == BOARD_SIZE && Zellen(b)
    ensures ZentrumGemeint(SpiegelBrett(b)) == -ZentrumGemeint(b)
  {
    var c := SpiegelBrett(b);
    assert c[54] == (if b[64] == DUMMY then DUMMY else -b[64]);
    assert c[55] == (if b[65] == DUMMY then DUMMY else -b[65]);
    assert c[64] == (if b[54] == DUMMY then DUMMY else -b[54]);
    assert c[65] == (if b[55] == DUMMY then DUMMY else -b[55]);
    ZentrumsBeitragGespiegelt(b[54]);
    ZentrumsBeitragGespiegelt(b[55]);
    ZentrumsBeitragGespiegelt(b[64]);
    ZentrumsBeitragGespiegelt(b[65]);
    FelderVier(b, ZENTRUM_GEMEINT);
    FelderVier(c, ZENTRUM_GEMEINT);
  }

  function EntwicklungBeitrag(f: Piece): int
  {
    if f.captured || f.kind == PAWN || f.kind == KING then 0
    else if f.colour == WHITE && !(21 <= f.pos <= 28) then 10
    else if f.colour == BLACK && !(91 <= f.pos <= 98) then -10
    else 0
  }

  function RaumBeitrag(f: Piece): int
  {
    if f.captured || f.kind == KING then 0
    else if f.colour == WHITE && f.pos / 10 >= 6 then 5
    else if f.colour == BLACK && f.pos / 10 <= 5 then -5
    else 0
  }

  function Entwicklung(fs: seq<Piece>): int
  {
    Summe(fs, EntwicklungBeitrag)
  }

  function Raum(fs: seq<Piece>): int
  {
    Summe(fs, RaumBeitrag)
  }

  function Positionen(b: seq<int>, fs: seq<Piece>): int
    requires |b| == BOARD_SIZE
  {
    Zentrum(b) + Entwicklung(fs) + Raum(fs)
  }

  /** The development and space terms are colour-symmetric: a piece off its
      home rank, or advanced into the other half, counts the same for
      either side. */
  lemma EntwicklungGespiegelt(fs: seq<Piece>)
    requires RosterOk(fs)
    ensures Entwicklung(Spiegeln(fs)) == -Entwicklung(fs)
  {
    forall i | 0 <= i < |fs|
      ensures EntwicklungBeitrag(Gespiegelt(fs[i])) == -EntwicklungBeitrag(fs[i])
    {
      var f := fs[i];
      assert PieceOk(f);
      assert 21 <= f.pos <= 28 <==> 91 <= Spiegelfeld(f.pos) <= 98;
      assert 91 <= f.pos <= 98 <==> 21 <= Spiegelfeld(f.pos) <= 28;
    }
    SummeGespiegelt(fs, EntwicklungBeitrag);
  }

  lemma RaumGespiegelt(fs: seq<Piece>)
    requires RosterOk(fs)
    ensures Raum(Spiegeln(fs)) == -Raum(fs)
  {
    forall i | 0 <= i < |fs|
      ensures RaumBeitrag(Gespiegelt(fs[i])) == -RaumBeitrag(fs[i])
    {
      assert PieceOk(fs[i]);
    }
    SummeGespiegelt(fs, RaumBeitrag);
  }

  // ---------------------------------------------------------------------
  // bewerteFigurenSpezifisch

  function LaeuferWert(pos: int): int
  {
    if pos in LAEUFER_FELDER then 10 else 0
  }

  function SpringerWert(pos: int): int
  {
    if pos in SPRINGER_FELDER then 15 else 0
  }

  /** istOffeneLinie: no pawn of either colour on the square's file. */
  predicate OffeneLinie(b: seq<int>, pos: int)
    requires |b| == BOARD_SIZE
  {
    forall reihe :: 2 <= reihe <= 9 ==> Abs(b[reihe * 10 + pos % 10]) != PAWN
  }

  function TurmWert(b: seq<int>, pos: int): int
    requires |b| == BOARD_SIZE
  {
    if OffeneLinie(b, pos) then 20 else 0
  }

  function BauerWert(f: Piece): int
  {
    var reihe := f.pos / 10;
    (if f.pos in ZENTRUM then 10 else 0) +
    (if f.colour == WHITE then (if reihe >= 6 then 5 else 0) + (if reihe >= 7 then 10 else 0)
     else (if reihe <= 5 then 5 else 0) + (if reihe <= 4 then 10 else 0))
  }

  /** One pass of the switch in bewerteFigurenSpezifisch. */
  function SpezBeitrag(b: seq<int>, f: Piece): int
    requires |b| == BOARD_SIZE
  {
    if f.captured then 0
    else
      var m := Vorzeichen(f.colour);
      if f.kind == BISHOP then LaeuferWert(f.pos) * m
      else if f.kind == KNIGHT then SpringerWert(f.pos) * m
      else if f.kind == ROOK then TurmWert(b, f.pos) * m
      else if f.kind == PAWN then BauerWert(f) * m
      else 0
  }

  function SpezSumme(b: seq<int>, fs: seq<Piece>): int
    requires |b| == BOARD_SIZE
  {
    if fs == [] then 0 else SpezSumme(b, fs[..|fs| - 1]) + SpezBeitrag(b, fs[|fs| - 1])
  }

  function IstLaeuferVon(farbe: int): Piece -> int
  {
    (f: Piece) => if !f.captured && f.colour == farbe && f.kind == BISHOP then 1 else 0
  }

  /** hatLaeuferpaar: at least two live bishops of the colour. */
  predicate Laeuferpaar(fs: seq<Piece>, farbe: int)
  {
    Summe(fs, IstLaeuferVon(farbe)) >= 2
  }

  function FigurenSpezifisch(b: seq<int>, fs: seq<Piece>): int
    requires |b| == BOARD_SIZE
  {
    SpezSumme(b, fs) + (if Laeuferpaar(fs, WHITE) then 30 else 0) - (if Laeuferpaar(fs, BLACK) then 30 else 0)
  }

  // ---------------------------------------------------------------------
  // bewerteBauernStruktur: doubled, isolated and passed pawns.

  /** One past the last row (9) and the last file (8) the pawn-structure
      loops visit. */
  const REIHEN_ENDE: int := 10
  const DATEIEN_ENDE: int := 9

  /** The number of rows 2 <= reihe < bis whose square on file datei holds v. */
  function InLinie(b: seq<int>, datei: int, v: int, bis: int): (n: nat)
    requires |b| == BOARD_SIZE && 0 <= datei <= 9 && 2 <= bis <= 10
    ensures n <= bis - 2
    decreases bis
  {
    if bis == 2 then 0
    else InLinie(b, datei, v, bis - 1) + (if b[(bis - 1) * 10 + datei] == v then 1 else 0)
  }

  /** The pawns of value v on file datei, rows 2..9. */
  function BauernZahl(b: seq<int>, datei: int, v: int): (n: nat)
    requires |b| == BOARD_SIZE && 0 <= datei <= 9
    ensures n <= 8
  {
    InLinie(b, datei, v, REIHEN_ENDE)
  }

  /** The row loop of bewerteDoppelbauern ends after row 9. */
  lemma BauernZahlAlleReihen(b: seq<int>, datei: int, v: int, reihe: int)
    requires |b| == BOARD_SIZE && 0 <= datei <= 9 && reihe == REIHEN_ENDE
    ensures BauernZahl(b, datei, v) == InLinie(b, datei, v, reihe)
  {
  }

  function DoppelStrafe(weiss: int, schwarz: int): int
  {
    (if weiss > 1 then -10 * (weiss - 1) else 0) + (if schwarz > 1 then 10 * (schwarz - 1) else 0)
  }

  /** bewerteDoppelbauern over the files 1 <= datei < bis. */
  function DoppelbauernBis(b: seq<int>, bis: int): int
    requires |b| == BOARD_SIZE && 1 <= bis <= 9
    decreases bis
  {
    if bis == 1 then 0
    else DoppelbauernBis(b, bis - 1) +
         DoppelStrafe(BauernZahl(b, bis - 1, PAWN), BauernZahl(b, bis - 1, -PAWN))
  }

  function Doppelbauern(b: seq<int>): int
    requires |b| == BOARD_SIZE
  {
    DoppelbauernBis(b, DATEIEN_ENDE)
  }

  /** The file loop of bewerteDoppelbauern ends after file 8. */
  lemma DoppelbauernAlleDateien(b: seq<int>, datei: int)
    requires |b| == BOARD_SIZE && datei == DATEIEN_ENDE
    ensures Doppelbauern(b) == DoppelbauernBis(b, datei)
  {
  }

  /** Each file with n > 1 pawns of one colour costs that colour 10 * (n - 1),
      and a file can hold at most 8 pawns of a colour. */
  lemma {:induction false} DoppelbauernSchranke(b: seq<int>, bis: int)
    requires |b| == BOARD_SIZE && 1 <= bis <= 9
    ensures -70 * (bis - 1) <= DoppelbauernBis(b, bis) <= 70 * (bis - 1)
    decreases bis
  {
    if bis > 1 {
      DoppelbauernSchranke(b, bis - 1);
    }
  }

  /** A pawn of the colour somewhere on file nd, rows 2..9. */
  predicate BauerAufLinie(b: seq<int>, nd: int, farbe: int)
    requires |b| == BOARD_SIZE && 1 <= nd <= 8
  {
    exists reihe :: 2 <= reihe <= 9 && b[reihe * 10 + nd] == PAWN * farbe
  }

  /** hatNachbarBauer: a pawn of the colour on an adjacent file within 1..8. */
  predicate NachbarBauer(b: seq<int>, datei: int, farbe: int)
    requires |b| == BOARD_SIZE
  {
    (1 <= datei - 1 <= 8 && BauerAufLinie(b, datei - 1, farbe)) ||
    (1 <= datei + 1 <= 8 && BauerAufLinie(b, datei + 1, farbe))
  }

  function IsolaniBeitrag(b: seq<int>, f: Piece): int
    requires |b| == BOARD_SIZE
  {
    if f.captured || f.kind != PAWN then 0
    else if !NachbarBauer(b, f.pos % 10, f.colour) then (if f.colour == WHITE then -15 else 15)
    else 0
  }

  function Isolanis(b: seq<int>, fs: seq<Piece>): int
    requires |b| == BOARD_SIZE
  {
    if fs == [] then 0 else Isolanis(b, fs[..|fs| - 1]) + IsolaniBeitrag(b, fs[|fs| - 1])
  }

  /** An enemy pawn of `farbe` on cell v. */
  predicate GegnerBauer(v: int, farbe: int)
  {
    Abs(v) == PAWN && v * farbe < 0
  }

  /** istFreibauer from step k on: walking forward from `feld` (the square
      reached after k - 1 steps), stop at the border; an enemy pawn on the
      square ahead or diagonally ahead makes the pawn not passed. */
  predicate FreiAb(b: seq<int>, feld: int, vorwaerts: int, farbe: int, k: int)
    requires Bordered(b) && IsValidPosition(feld) && vorwaerts in {10, -10} && 1 <= k
    decreases 9 - k
  {
    if k > 8 then true
    else
      var vor := feld + vorwaerts;
      if b[vor] == DUMMY then true
      else if GegnerBauer(b[vor], farbe) then false
      else if b[vor - 1] != DUMMY && GegnerBauer(b[vor - 1], farbe) then false
      else if b[vor + 1] != DUMMY && GegnerBauer(b[vor + 1], farbe) then false
      else FreiAb(b, vor, vorwaerts, farbe, k + 1)
  }

  predicate Freibauer(b: seq<int>, f: Piece)
    requires Bordered(b) && PieceOk(f)
  {
    FreiAb(b, f.pos, Vorwaerts(f.colour), f.colour, 1)
  }

  function FreibauerBeitrag(b: seq<int>, f: Piece): int
    requires Bordered(b) && PieceOk(f)
  {
    if f.captured || f.kind != PAWN then 0
    else if Freibauer(b, f) then (if f.colour == WHITE then 20 else -20)
    else 0
  }

  function Freibauern(b: seq<int>, fs: seq<Piece>): int
    requires Bordered(b) && RosterOk(fs)
  {
    if fs == [] then 0 else Freibauern(b, fs[..|fs| - 1]) + FreibauerBeitrag(b, fs[|fs| - 1])
  }

  function BauernStruktur(b: seq<int>, fs: seq<Piece>): int
    requires Bordered(b) && RosterOk(fs)
  {
    Doppelbauern(b) + Isolanis(b, fs) + Freibauern(b, fs)
  }

  // ---------------------------------------------------------------------
  // bewerteKoenigsSicherheit: pawn shield and nearby attackers.

  function IstKoenigVon(farbe: int): Piece -> bool
  {
    (f: Piece) => !f.captured && f.kind == KING && f.colour == farbe
  }

  /** The pawns of `farbe` on the two diagonal squares getBauernschildFelder
      lists: one row towards the own home rank, i.e. behind the king. */
  function SchildAnzahl(b: seq<int>, koenigPos: int, farbe: int): (n: int)
    requires Bordered(b) && IsValidPosition(koenigPos)
    ensures 0 <= n <= 2
  {
    var richtung := if farbe == WHITE then -10 else 10;
    (if b[koenigPos + richtung - 1] == PAWN * farbe then 1 else 0) +
    (if b[koenigPos + richtung + 1] == PAWN * farbe then 1 else 0)
  }

  /** The shield term of one colour: 5 per shield pawn, signed by colour;
      0 when the colour has no live king. */
  function SchildTerm(b: seq<int>, fs: seq<Piece>, farbe: int): int
    requires Bordered(b) && RosterOk(fs)
  {
    match FindIndex(fs, IstKoenigVon(farbe))
    case None => 0
    case Some(k) => SchildAnzahl(b, fs[k].pos, farbe) * 5 * Vorzeichen(farbe)
  }

  function Bauernschild(b: seq<int>, fs: seq<Piece>): int
    requires Bordered(b) && RosterOk(fs)
  {
    SchildTerm(b, fs, WHITE) + SchildTerm(b, fs, BLACK)
  }

  /** The shield term lies in -10..10, and White's part is never negative. */
  lemma BauernschildSchranke(b: seq<int>, fs: seq<Piece>)
    requires Bordered(b) && RosterOk(fs)
    ensures 0 <= SchildTerm(b, fs, WHITE) <= 10 && -10 <= SchildTerm(b, fs, BLACK) <= 0
    ensures -10 <= Bauernschild(b, fs) <= 10
  {
  }

  /** istFigurAngriffsnah: a live piece of colour `gegner` whose square
      number is within 30 of the king's. */
  function IstAngreifer(gegner: int, koenigPos: int): Piece -> int
  {
    (f: Piece) => if !f.captured && f.colour == gegner && Abs(f.pos - koenigPos) <= 30 then 1 else 0
  }

  function AngriffsTerm(fs: seq<Piece>, farbe: int): int
  {
    match FindIndex(fs, IstKoenigVon(farbe))
    case None => 0
    case Some(k) => Summe(fs, IstAngreifer(-farbe, fs[k].pos)) * 10 * -Vorzeichen(farbe)
  }

  function KoenigsAngriff(fs: seq<Piece>): int
  {
    AngriffsTerm(fs, WHITE) + AngriffsTerm(fs, BLACK)
  }

  function KoenigsSicherheit(b: seq<int>, fs: seq<Piece>): int
    requires Bordered(b) && RosterOk(fs)
  {
    Bauernschild(b, fs) + KoenigsAngriff(fs)
  }

  /** A count of roster entries lies between 0 and the roster length. */
  lemma {:induction false} ZaehlungSchranke(fs: seq<Piece>, g: Piece -> int)
    requires forall f :: g(f) in {0, 1}
    ensures 0 <= Summe(fs, g) <= |fs|
  {
    if fs != [] {
      ZaehlungSchranke(fs[..|fs| - 1], g);
    }
  }

  /** Each side's attacker term is 10 per nearby enemy piece, against it. */
  lemma KoenigsAngriffSchranke(fs: seq<Piece>)
    ensures -10 * |fs| <= AngriffsTerm(fs, WHITE) <= 0 <= AngriffsTerm(fs, BLACK) <= 10 * |fs|
  {
    match FindIndex(fs, IstKoenigVon(WHITE)) {
      case None =>
      case Some(k) => ZaehlungSchranke(fs, IstAngreifer(BLACK, fs[k].pos));
    }
    match FindIndex(fs, IstKoenigVon(BLACK)) {
      case None =>
      case Some(k) => ZaehlungSchranke(fs, IstAngreifer(WHITE, fs[k].pos));
    }
  }

  // ---------------------------------------------------------------------
  // bewerteStellung

  /** The score bewerteStellung returns: material alone when the extended
      evaluation is off, else the sum of the five terms. */
  function Bewertung(b: seq<int>, fs: seq<Piece>, erweitert: bool): int
    requires Bordered(b) && RosterOk(fs)
  {
    if !erweitert then Material(fs)
    else Material(fs) + Positionen(b, fs) + FigurenSpezifisch(b, fs) +
         BauernStruktur(b, fs) + KoenigsSicherheit(b, fs)
  }
}
