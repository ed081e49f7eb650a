/** The JS engine's ChesstegEngine class (docs/js/chessteg.js): the fields
    the source updates in place and the methods that loop over the board and
    the roster.  Each method is proved to compute the matching function of
    JsModel on the state it reads, and to leave or change the state as that
    function says. */
module JsEngine {
  import opened Common
  import opened BoardGen
  import opened JsModel
  import opened JsEval

  class ChesstegEngine {
    var brett: seq<int>
    var figurenListe: seq<Piece>
    var weissAmZug: bool
    var bewertung: int
    var endmatt: bool
    var patt: bool
    var letzterZug: Option<Eintrag>
    var zugHistorie: seq<Eintrag>
    var historieIndex: int
    var rochadeRechte: Rights
    var enPassantTarget: Option<int>
    var halbzugCounter: int
    var vollzugCounter: int
    var zugCounter: int
    const zobristKeys: ZobristKeys

    /** The position part of the state. */
    function Aktuell(): Stellung
      reads this`brett, this`figurenListe, this`weissAmZug, this`rochadeRechte, this`enPassantTarget
    {
      Stellung(brett, figurenListe, weissAmZug, rochadeRechte, enPassantTarget)
    }

    /** erstelleZustandSnapshot. */
    function ErstelleZustandSnapshot(): Zustand
      reads this`brett, this`figurenListe, this`weissAmZug, this`rochadeRechte, this`enPassantTarget
      reads this`bewertung, this`endmatt, this`patt, this`halbzugCounter, this`vollzugCounter, this`zugCounter
    {
      Zustand(Aktuell(), bewertung, endmatt, patt, halbzugCounter, vollzugCounter, zugCounter)
    }

    function AktuellePartie(): Partie
      reads this
    {
      Partie(ErstelleZustandSnapshot(), zugHistorie, historieIndex, letzterZug)
    }

    predicate Valid()
      reads this
    {
      PartieOk(AktuellePartie())
    }

    /** The constructor with initialisiereBrett and initialisiereFiguren; the
        random Zobrist keys are a parameter. */
    constructor (keys: ZobristKeys)
      ensures Valid()
      ensures figurenListe == StartFiguren()
      ensures exists leer :: IsEmptyMailbox(leer) && brett == Aufstellen(leer, StartFiguren())
      ensures weissAmZug && !endmatt && !patt && bewertung == 0 && letzterZug == None
      ensures rochadeRechte == ALL_RIGHTS && enPassantTarget == None
      ensures halbzugCounter == 0 && vollzugCounter == 1 && zugCounter == 0
      ensures zugHistorie == [] && historieIndex == -1
      ensures zobristKeys == keys
    {
      var leer := InitialiseMailbox();
      brett := leer;
      figurenListe := [];
      weissAmZug := true;
      bewertung := 0;
      endmatt := false;
      patt := false;
      letzterZug := None;
      zugHistorie := [];
      historieIndex := -1;
      rochadeRechte := ALL_RIGHTS;
      enPassantTarget := None;
      halbzugCounter := 0;
      vollzugCounter := 1;
      zugCounter := 0;
      zobristKeys := keys;
      new;
      InitialisiereFiguren();
      StartPartieOk(leer);
      assert AktuellePartie() == StartPartie(leer);
    }

    /** fuegeFigurHinzu. */
    method FuegeFigurHinzu(art: int, farbe: int, position: int)
      requires |brett| == BOARD_SIZE && 0 <= position < BOARD_SIZE
      modifies this`brett, this`figurenListe
      ensures figurenListe == old(figurenListe) + [Piece(art, farbe, position, false)]
      ensures brett == old(brett)[position := art * farbe]
    {
      figurenListe := figurenListe + [Piece(art, farbe, position, false)];
      brett := brett[position := art * farbe];
    }

    /** One fuegeFigurHinzu call, with the board read as the start board
        `b0` with the roster so far placed on it. */
    method Aufstellend(ghost b0: seq<int>, art: int, farbe: int, position: int)
      requires |b0| == BOARD_SIZE && 0 <= position < BOARD_SIZE
      requires brett == Aufstellen(b0, figurenListe)
      modifies this`brett, this`figurenListe
      ensures figurenListe == old(figurenListe) + [Piece(art, farbe, position, false)]
      ensures brett == Aufstellen(b0, figurenListe)
    {
      ghost var vorher := figurenListe;
      AufstellenAnhang(b0, vorher, Piece(art, farbe, position, false));
      FuegeFigurHinzu(art, farbe, position);
    }

    /** The four fuegeFigurHinzu calls of initialisiereFiguren for the kings and queens. */
    method KoenigeUndDamenHinzufuegen(ghost b0: seq<int>)
      requires |b0| == BOARD_SIZE && brett == Aufstellen(b0, figurenListe)
      modifies this`brett, this`figurenListe
      ensures figurenListe == old(figurenListe) + [Piece(KING, BLACK, 95, false), Piece(KING, WHITE, 25, false), Piece(QUEEN, BLACK, 94, false), Piece(QUEEN, WHITE, 24, false)]
      ensures brett == Aufstellen(b0, figurenListe)
    {
      Aufstellend(b0, KING, BLACK, 95);
      Aufstellend(b0, KING, WHITE, 25);
      Aufstellend(b0, QUEEN, BLACK, 94);
      Aufstellend(b0, QUEEN, WHITE, 24);
    }

    /** The four fuegeFigurHinzu calls of initialisiereFiguren for the rooks. */
    method TuermeHinzufuegen(ghost b0: seq<int>)
      requires |b0| == BOARD_SIZE && brett == Aufstellen(b0, figurenListe)
      modifies this`brett, this`figurenListe
      ensures figurenListe == old(figurenListe) + [Piece(ROOK, BLACK, 91, false), Piece(ROOK, BLACK, 98, false), Piece(ROOK, WHITE, 21, false), Piece(ROOK, WHITE, 28, false)]
      ensures brett == Aufstellen(b0, figurenListe)
    {
      Aufstellend(b0, ROOK, BLACK, 91);
      Aufstellend(b0, ROOK, BLACK, 98);
      Aufstellend(b0, ROOK, WHITE, 21);
      Aufstellend(b0, ROOK, WHITE, 28);
    }

    /** The four fuegeFigurHinzu calls of initialisiereFiguren for the knights. */
    method SpringerHinzufuegen(ghost b0: seq<int>)
      requires |b0| == BOARD_SIZE && brett == Aufstellen(b0, figurenListe)
      modifies this`brett, this`figurenListe
      ensures figurenListe == old(figurenListe) + [Piece(KNIGHT, BLACK, 92, false), Piece(KNIGHT, BLACK, 97, false), Piece(KNIGHT, WHITE, 22, false), Piece(KNIGHT, WHITE, 27, false)]
      ensures brett == Aufstellen(b0, figurenListe)
    {
      Aufstellend(b0, KNIGHT, BLACK, 92);
      Aufstellend(b0, KNIGHT, BLACK, 97);
      Aufstellend(b0, KNIGHT, WHITE, 22);
      Aufstellend(b0, KNIGHT, WHITE, 27);
    }

    /** The four fuegeFigurHinzu calls of initialisiereFiguren for the bishops. */
    method LaeuferHinzufuegen(ghost b0: seq<int>)
      requires |b0| == BOARD_SIZE && brett == Aufstellen(b0, figurenListe)
      modifies this`brett, this`figurenListe
      ensures figurenListe == old(figurenListe) + [Piece(BISHOP, BLACK, 93, false), Piece(BISHOP, BLACK, 96, false), Piece(BISHOP, WHITE, 23, false), Piece(BISHOP, WHITE, 26, false)]
      ensures brett == Aufstellen(b0, figurenListe)
    {
      Aufstellend(b0, BISHOP, BLACK, 93);
      Aufstellend(b0, BISHOP, BLACK, 96);
      Aufstellend(b0, BISHOP, WHITE, 23);
      Aufstellend(b0, BISHOP, WHITE, 26);
    }

    /** The sixteen fuegeFigurHinzu calls of initialisiereFiguren that
        place kings, queens, rooks, knights and bishops. */
    method OffiziereHinzufuegen()
      requires |brett| == BOARD_SIZE
      modifies this`brett, this`figurenListe
      ensures figurenListe == OFFIZIERE
      ensures brett == Aufstellen(old(brett), OFFIZIERE)
    {
      ghost var b0 := brett;
      figurenListe := [];
      KoenigeUndDamenHinzufuegen(b0);
      TuermeHinzufuegen(b0);
      SpringerHinzufuegen(b0);
      LaeuferHinzufuegen(b0);
    }

    /** One round of the pawn loop: the black pawn on the seventh rank, then
        the white pawn on the second. */
    method BauernpaarHinzufuegen(ghost b0: seq<int>, ghost davor: seq<Piece>, i: int)
      requires |b0| == BOARD_SIZE && brett == Aufstellen(b0, figurenListe) && 1 <= i <= 8
      requires figurenListe == davor + Bauernpaare(i - 1)
      modifies this`brett, this`figurenListe
      ensures figurenListe == davor + Bauernpaare(i)
      ensures brett == Aufstellen(b0, figurenListe)
    {
      Aufstellend(b0, PAWN, BLACK, 80 + i);
      Aufstellend(b0, PAWN, WHITE, 30 + i);
      assert figurenListe == davor + Bauernpaare(i - 1) + [Piece(PAWN, BLACK, 80 + i, false), Piece(PAWN, WHITE, 30 + i, false)];
    }

    /** The loop of initialisiereFiguren that places a black and a white
        pawn on each file. */
    method BauernHinzufuegen(ghost b0: seq<int>)
      requires |b0| == BOARD_SIZE && brett == Aufstellen(b0, figurenListe)
      modifies this`brett, this`figurenListe
      ensures figurenListe == old(figurenListe) + Bauernpaare(LINIEN)
      ensures brett == Aufstellen(b0, figurenListe)
    {
      var i := 1;
      while i <= 8
        invariant 1 <= i <= 9
        invariant figurenListe == old(figurenListe) + Bauernpaare(i - 1)
        invariant brett == Aufstellen(b0, figurenListe)
      {
        BauernpaarHinzufuegen(b0, old(figurenListe), i);
        i := i + 1;
      }
    }

    /** initialisiereFiguren: the roster is rebuilt and each piece's code is
        written onto the board, which is not cleared first; the rights,
        en-passant target, counters and history are reset. */
    method InitialisiereFiguren()
      requires |brett| == BOARD_SIZE
      modifies this`brett, this`figurenListe, this`rochadeRechte, this`enPassantTarget,
        this`halbzugCounter, this`vollzugCounter, this`zugCounter, this`zugHistorie, this`historieIndex
      ensures figurenListe == StartFiguren()
      ensures brett == Aufstellen(old(brett), StartFiguren())
      ensures rochadeRechte == ALL_RIGHTS && enPassantTarget == None
      ensures halbzugCounter == 0 && vollzugCounter == 1 && zugCounter == 0
      ensures zugHistorie == [] && historieIndex == -1
    {
      ghost var b0 := brett;
      OffiziereHinzufuegen();
      BauernHinzufuegen(b0);
      assert figurenListe == StartFiguren();
      rochadeRechte := ALL_RIGHTS;
      enPassantTarget := None;
      halbzugCounter := 0;
      vollzugCounter := 1;
      zugHistorie := [];
      historieIndex := -1;
      zugCounter := 0;
    }

    // -------------------------------------------------------------------
    // Generators

    /** The inner `while` of the sliding generators: one direction from
        `start` until a DUMMY cell or a piece stops it. */
    method GleitRichtung(figur: Piece, start: int, richtung: int) returns (zuege: seq<Zug>)
      requires StellungOk(Aktuell()) && PieceOk(figur) && IsStep(richtung) && 0 <= start < BOARD_SIZE
      ensures zuege == Zuege(Aktuell(), figur, Walk(brett, figur.colour, start, richtung))
    {
      var s := Aktuell();
      var b := brett;
      zuege := [];
      var feld := start;
      ghost var gelaufen: seq<Target> := [];
      while b[feld] != DUMMY
        invariant 0 <= feld < BOARD_SIZE
        invariant Walk(b, figur.colour, start, richtung) == gelaufen + Walk(b, figur.colour, feld, richtung)
        invariant zuege == Zuege(s, figur, gelaufen)
        decreases if richtung > 0 then BOARD_SIZE - feld else feld
      {
        if b[feld] == EMPTY {
          GleitFeldLeer(s, figur, start, richtung, gelaufen, feld);
          zuege := zuege + [ErstelleZug(s, figur, feld, false, None)];
          gelaufen := gelaufen + [Target(feld, false)];
        } else {
          GleitFeldBesetzt(s, figur, start, richtung, gelaufen, feld);
          if IsOpponent(figur.colour, b[feld]) {
            zuege := zuege + [ErstelleZug(s, figur, feld, true, None)];
          }
          return;
        }
        feld := feld + richtung;
      }
      assert gelaufen + [] == gelaufen;
    }

    /** The sliding loop shared by generiereTurmZuege and
        generiereLaeuferZuege: walk each direction while the cell is not
        DUMMY, add EMPTY cells, add an enemy and stop at any piece. */
    method GleitZuege(figur: Piece, richtungen: seq<int>) returns (zuege: seq<Zug>)
      requires StellungOk(Aktuell()) && PieceOk(figur) && AllSteps(richtungen)
      ensures zuege == Zuege(Aktuell(), figur, Slide(brett, figur.colour, figur.pos, richtungen))
    {
      var s := Aktuell();
      zuege := [];
      var i := 0;
      while i < |richtungen|
        invariant 0 <= i <= |richtungen|
        invariant zuege == Zuege(s, figur, Slide(brett, figur.colour, figur.pos, richtungen[..i]))
      {
        var richtung := richtungen[i];
        assert IsStep(richtung);
        StepInside(figur.pos, richtung);
        var gelaufen := GleitRichtung(figur, figur.pos + richtung, richtung);
        ZuegeAppend(s, figur, Slide(brett, figur.colour, figur.pos, richtungen[..i]),
                    Walk(brett, figur.colour, figur.pos + richtung, richtung));
        zuege := zuege + gelaufen;
        assert richtungen[..i + 1][..i] == richtungen[..i];
        i := i + 1;
      }
      assert richtungen[..i] == richtungen;
    }

    /** The fixed-offset loop of generiereSpringerZuege and the king. */
    method SprungZuege(figur: Piece, offsets: seq<int>) returns (zuege: seq<Zug>)
      requires StellungOk(Aktuell()) && PieceOk(figur) && AllJumps(offsets)
      ensures zuege == Zuege(Aktuell(), figur, Jumps(brett, figur.colour, figur.pos, offsets))
    {
      var s := Aktuell();
      zuege := [];
      var i := 0;
      while i < |offsets|
        invariant 0 <= i <= |offsets|
        invariant zuege == Zuege(s, figur, Jumps(brett, figur.colour, figur.pos, offsets[..i]))
      {
        StepInside(figur.pos, offsets[i]);
        var feld := figur.pos + offsets[i];
        ghost var vorher := Jumps(brett, figur.colour, figur.pos, offsets[..i]);
        assert offsets[..i + 1][..i] == offsets[..i];
        if brett[feld] != DUMMY {
          if brett[feld] == EMPTY {
            ZuegeAppend(s, figur, vorher, [Target(feld, false)]);
            zuege := zuege + [ErstelleZug(s, figur, feld, false, None)];
          } else if IsOpponent(figur.colour, brett[feld]) {
            ZuegeAppend(s, figur, vorher, [Target(feld, true)]);
            zuege := zuege + [ErstelleZug(s, figur, feld, true, None)];
          }
        }
        i := i + 1;
      }
      assert offsets[..i] == offsets;
    }

    method GeneriereTurmZuege(figur: Piece) returns (zuege: seq<Zug>)
      requires StellungOk(Aktuell()) && PieceOk(figur)
      ensures zuege == TurmZuege(Aktuell(), figur)
    {
      OffsetTablesAreSteps();
      zuege := GleitZuege(figur, ROOK_DIRECTIONS);
    }

    method GeneriereLaeuferZuege(figur: Piece) returns (zuege: seq<Zug>)
      requires StellungOk(Aktuell()) && PieceOk(figur)
      ensures zuege == LaeuferZuege(Aktuell(), figur)
    {
      OffsetTablesAreSteps();
      zuege := GleitZuege(figur, BISHOP_DIRECTIONS);
    }

    method GeneriereDameZuege(figur: Piece) returns (zuege: seq<Zug>)
      requires StellungOk(Aktuell()) && PieceOk(figur)
      ensures zuege == DameZuege(Aktuell(), figur)
    {
      var turm := GeneriereTurmZuege(figur);
      var laeufer := GeneriereLaeuferZuege(figur);
      zuege := turm + laeufer;
    }

    method GeneriereSpringerZuege(figur: Piece) returns (zuege: seq<Zug>)
      requires StellungOk(Aktuell()) && PieceOk(figur)
      ensures zuege == SpringerZuege(Aktuell(), figur)
    {
      OffsetTablesAreSteps();
      zuege := SprungZuege(figur, KNIGHT_OFFSETS);
    }

    /** The `[DAME, TURM, LAEUFER, SPRINGER].forEach` promotion loop. */
    method UmwandlungsZuege(figur: Piece, feld: int, istSchlag: bool) returns (zuege: seq<Zug>)
      ensures zuege == Umwandlungen(Aktuell(), figur, feld, istSchlag)
    {
      var s := Aktuell();
      zuege := [];
      var k := 0;
      while k < |UMWANDLUNGEN|
        invariant 0 <= k <= 4
        invariant |zuege| == k
        invariant forall j :: 0 <= j < k ==> zuege[j] == ErstelleZug(s, figur, feld, istSchlag, Some(UMWANDLUNGEN[j]))
      {
        zuege := zuege + [ErstelleZug(s, figur, feld, istSchlag, Some(UMWANDLUNGEN[k]))];
        k := k + 1;
      }
    }

    /** The forward part of generiereBauernZuege: one step (four
        promotions onto the last row), then the double step from the start
        row. */
    method BauernVorwaertsZuege(figur: Piece) returns (zuege: seq<Zug>)
      requires StellungOk(Aktuell()) && PieceOk(figur)
      ensures zuege == BauernVorwaerts(Aktuell(), figur)
    {
      var s := Aktuell();
      var vorwaerts := if figur.colour == WHITE then 10 else -10;
      var startreihe := if figur.colour == WHITE then 3 else 8;
      var aktuelleReihe := figur.pos / 10;
      StepInside(figur.pos, vorwaerts);
      zuege := [];
      var feld := figur.pos + vorwaerts;
      if brett[feld] == EMPTY {
        var zielReihe := feld / 10;
        if (figur.colour == WHITE && zielReihe == 9) || (figur.colour == BLACK && zielReihe == 2) {
          zuege := UmwandlungsZuege(figur, feld, false);
        } else {
          zuege := zuege + [ErstelleZug(s, figur, feld, false, None)];
          if aktuelleReihe == startreihe {
            var doppelfeld := feld + vorwaerts;
            if brett[doppelfeld] == EMPTY {
              zuege := zuege + [ErstelleZug(s, figur, doppelfeld, false, None)];
            }
          }
        }
      }
    }

    /** One side of the diagonal-capture loop of generiereBauernZuege. */
    method BauernSchlagZuege(figur: Piece, seite: int) returns (zuege: seq<Zug>)
      requires StellungOk(Aktuell()) && PieceOk(figur) && IsDiagonal(seite)
      ensures zuege == BauernSchlag(Aktuell(), figur, seite)
    {
      var s := Aktuell();
      StepInside(figur.pos, seite);
      var feld := figur.pos + seite;
      zuege := [];
      if brett[feld] != DUMMY && brett[feld] != EMPTY {
        if IsOpponent(figur.colour, brett[feld]) {
          var zielReihe := feld / 10;
          if (figur.colour == WHITE && zielReihe == 9) || (figur.colour == BLACK && zielReihe == 2) {
            zuege := UmwandlungsZuege(figur, feld, true);
          } else {
            zuege := [ErstelleZug(s, figur, feld, true, None)];
          }
        }
      }
    }

    /** One side of the en-passant loop of generiereBauernZuege. */
    method EnPassantZuege(figur: Piece, seite: int) returns (zuege: seq<Zug>)
      ensures zuege == EnPassantZug(Aktuell(), figur, seite)
    {
      var s := Aktuell();
      var feld := figur.pos + seite;
      zuege := [];
      if Some(feld) == enPassantTarget {
        var enPassantZug := ErstelleZug(s, figur, feld, true, None);
        var geschlagenPos := if figur.colour == WHITE then feld - 10 else feld + 10;
        enPassantZug := enPassantZug.(geschlagen := Opfer(s, geschlagenPos));
        enPassantZug := enPassantZug.(enPassant := true);
        zuege := [enPassantZug];
      }
    }

    /** generiereBauernZuege: forward moves, the two diagonal captures, then
        en passant on both sides when a target is set. */
    method GeneriereBauernZuege(figur: Piece) returns (zuege: seq<Zug>)
      requires StellungOk(Aktuell()) && PieceOk(figur)
      ensures zuege == BauernZuege(Aktuell(), figur)
    {
      var vorwaerts := if figur.colour == WHITE then 10 else -10;
      zuege := BauernVorwaertsZuege(figur);
      var rechts := BauernSchlagZuege(figur, vorwaerts + 1);
      var links := BauernSchlagZuege(figur, vorwaerts - 1);
      zuege := zuege + rechts + links;
      if enPassantTarget.Some? && enPassantTarget.value != 0 {
        var epRechts := EnPassantZuege(figur, vorwaerts + 1);
        var epLinks := EnPassantZuege(figur, vorwaerts - 1);
        zuege := zuege + (epRechts + epLinks);
      } else {
        assert zuege + [] == zuege;
      }
    }

    /** generiereKoenigsZuege: the eight steps, then castling on both sides
        when the king is not in check. */
    method GeneriereKoenigsZuege(figur: Piece) returns (zuege: seq<Zug>)
      requires StellungOk(Aktuell()) && PieceOk(figur)
      ensures zuege == KoenigsZuege(Aktuell(), figur)
    {
      var s := Aktuell();
      OffsetTablesAreSteps();
      var schritte := SprungZuege(figur, KING_OFFSETS);
      zuege := schritte;
      var imSchach := IstKoenigImSchach(figur.colour);
      if !imSchach {
        var kurzZug := RochadeZuege(figur, Kurz);
        var langZug := RochadeZuege(figur, Lang);
        zuege := zuege + kurzZug + langZug;
        assert zuege == schritte + (kurzZug + langZug);
      } else {
        assert zuege == schritte + [];
      }
    }

    /** One castling side of generiereKoenigsZuege. */
    method RochadeZuege(figur: Piece, seite: Seite) returns (zuege: seq<Zug>)
      requires StellungOk(Aktuell())
      ensures zuege == RochadeZug(Aktuell(), figur, seite)
    {
      var s := Aktuell();
      var startReihe := if figur.colour == WHITE then 2 else 9;
      var moeglich := IstRochadeMoeglich(figur.colour, seite);
      zuege := [];
      if moeglich {
        var rochadeZug := ErstelleZug(s, figur, startReihe * 10 + (if seite == Kurz then 7 else 3), false, None);
        rochadeZug := rochadeZug.(rochade := Some(seite));
        zuege := [rochadeZug];
      }
    }

    /** generiereFigurenZuege. */
    method GeneriereFigurenZuege(figur: Piece) returns (zuege: seq<Zug>)
      requires StellungOk(Aktuell()) && PieceOk(figur)
      ensures zuege == FigurenZuege(Aktuell(), figur)
    {
      if figur.kind == ROOK {
        zuege := GeneriereTurmZuege(figur);
      } else if figur.kind == BISHOP {
        zuege := GeneriereLaeuferZuege(figur);
      } else if figur.kind == QUEEN {
        zuege := GeneriereDameZuege(figur);
      } else if figur.kind == KNIGHT {
        zuege := GeneriereSpringerZuege(figur);
      } else if figur.kind == KING {
        zuege := GeneriereKoenigsZuege(figur);
      } else if figur.kind == PAWN {
        zuege := GeneriereBauernZuege(figur);
      } else {
        zuege := [];
      }
    }

    // -------------------------------------------------------------------
    // Attack detection

    /** generiereBauernZuegeOhneEnPassant, by destination. */
    method BauernZieleOhneEnPassant(figur: Piece) returns (ziele: seq<int>)
      requires StellungOk(Aktuell()) && PieceOk(figur)
      ensures ziele == BauernAngriff(brett, figur, Vorwaerts(figur.colour) + 1) +
                       BauernAngriff(brett, figur, Vorwaerts(figur.colour) - 1)
    {
      var vorwaerts := if figur.colour == WHITE then 10 else -10;
      var seiten := [vorwaerts + 1, vorwaerts - 1];
      ziele := [];
      var j := 0;
      while j < 2
        invariant 0 <= j <= 2
        invariant ziele == (if j >= 1 then BauernAngriff(brett, figur, seiten[0]) else []) +
                           (if j >= 2 then BauernAngriff(brett, figur, seiten[1]) else [])
      {
        StepInside(figur.pos, seiten[j]);
        var feld := figur.pos + seiten[j];
        if brett[feld] != DUMMY && brett[feld] != EMPTY {
          if IsOpponent(figur.colour, brett[feld]) {
            ziele := ziele + [feld];
          }
        }
        j := j + 1;
      }
    }

    /** The king case of generiereFigurenZuegeOhneSchachpruefung. */
    method KoenigsZiele(figur: Piece) returns (ziele: seq<int>)
      requires StellungOk(Aktuell()) && PieceOk(figur)
      ensures ziele == Ziele(Jumps(brett, figur.colour, figur.pos, KING_OFFSETS))
    {
      OffsetTablesAreSteps();
      ghost var ts: seq<Target> := [];
      ziele := [];
      var i := 0;
      while i < |KING_OFFSETS|
        invariant 0 <= i <= |KING_OFFSETS|
        invariant ts == Jumps(brett, figur.colour, figur.pos, KING_OFFSETS[..i]) && ziele == Ziele(ts)
      {
        JumpsSnoc(brett, figur.colour, figur.pos, KING_OFFSETS, i);
        ghost var t := Jump(brett, figur.colour, figur.pos, KING_OFFSETS[i]);
        var z := SprungZiel(figur, KING_OFFSETS[i]);
        ZieleAppend(ts, t);
        ts := ts + t;
        ziele := ziele + z;
        i := i + 1;
      }
      assert KING_OFFSETS[..i] == KING_OFFSETS;
    }

    /** One offset of the king loop: a playable square that is EMPTY or
        holds an enemy. */
    method SprungZiel(figur: Piece, o: int) returns (z: seq<int>)
      requires StellungOk(Aktuell()) && PieceOk(figur) && -21 <= o <= 21
      ensures z == Ziele(Jump(brett, figur.colour, figur.pos, o))
    {
      StepInside(figur.pos, o);
      var feld := figur.pos + o;
      z := [];
      if brett[feld] != DUMMY {
        if brett[feld] == EMPTY || IsOpponent(figur.colour, brett[feld]) {
          z := [feld];
        }
      }
    }

    /** generiereFigurenZuegeOhneSchachpruefung, by the destinations its
        callers compare against. */
    method ZieleOhneSchachpruefung(figur: Piece) returns (ziele: seq<int>)
      requires StellungOk(Aktuell()) && PieceOk(figur)
      ensures ziele == AngriffsZiele(Aktuell(), figur)
    {
      var s := Aktuell();
      OffsetTablesAreSteps();
      var zuege: seq<Zug>;
      if figur.kind == ROOK {
        zuege := GeneriereTurmZuege(figur);
        NachPositionenZuege(s, figur, Slide(brett, figur.colour, figur.pos, ROOK_DIRECTIONS));
        ziele := NachPositionen(zuege);
      } else if figur.kind == BISHOP {
        zuege := GeneriereLaeuferZuege(figur);
        NachPositionenZuege(s, figur, Slide(brett, figur.colour, figur.pos, BISHOP_DIRECTIONS));
        ziele := NachPositionen(zuege);
      } else if figur.kind == QUEEN {
        zuege := GeneriereDameZuege(figur);
        NachPositionenZuege(s, figur, Slide(brett, figur.colour, figur.pos, ROOK_DIRECTIONS));
        NachPositionenZuege(s, figur, Slide(brett, figur.colour, figur.pos, BISHOP_DIRECTIONS));
        assert NachPositionen(TurmZuege(s, figur) + LaeuferZuege(s, figur)) ==
               NachPositionen(TurmZuege(s, figur)) + NachPositionen(LaeuferZuege(s, figur));
        ziele := NachPositionen(zuege);
      } else if figur.kind == KNIGHT {
        zuege := GeneriereSpringerZuege(figur);
        NachPositionenZuege(s, figur, Jumps(brett, figur.colour, figur.pos, KNIGHT_OFFSETS));
        ziele := NachPositionen(zuege);
      } else if figur.kind == PAWN {
        ziele := BauernZieleOhneEnPassant(figur);
      } else if figur.kind == KING {
        ziele := KoenigsZiele(figur);
      } else {
        ziele := [];
      }
    }

    /** istFeldBedroht. */
    method IstFeldBedroht(feld: int, farbe: int) returns (bedroht: bool)
      requires StellungOk(Aktuell())
      ensures bedroht == Bedroht(Aktuell(), feld, farbe)
    {
      var s := Aktuell();
      var gegnerFarbe := -farbe;
      var i := 0;
      while i < |figurenListe|
        invariant 0 <= i <= |figurenListe|
        invariant forall k :: 0 <= k < i && !figurenListe[k].captured && figurenListe[k].colour == -farbe ==>
          feld !in AngriffsZiele(s, figurenListe[k])
      {
        var figur := figurenListe[i];
        if !(figur.captured || figur.colour != gegnerFarbe) {
          var ziele := ZieleOhneSchachpruefung(figur);
          var getroffen := ZielGetroffen(ziele, feld);
          if getroffen {
            return true;
          }
        }
        i := i + 1;
      }
      return false;
    }

    /** The inner loop of istFeldBedroht over one piece's targets. */
    static method ZielGetroffen(ziele: seq<int>, feld: int) returns (getroffen: bool)
      ensures getroffen == (feld in ziele)
    {
      var j := 0;
      while j < |ziele|
        invariant 0 <= j <= |ziele|
        invariant feld !in ziele[..j]
      {
        if ziele[j] == feld {
          return true;
        }
        assert ziele[..j + 1] == ziele[..j] + [ziele[j]];
        j := j + 1;
      }
      assert ziele[..j] == ziele;
      return false;
    }

    /** istKoenigImSchach: false without a live king of the colour,
        otherwise whether its square is attacked. */
    method IstKoenigImSchach(farbe: int) returns (imSchach: bool)
      requires StellungOk(Aktuell())
      ensures imSchach == ImSchach(Aktuell(), farbe)
    {
      var koenig := KoenigIndex(figurenListe, farbe);
      if koenig.None? {
        return false;
      }
      imSchach := IstFeldBedroht(figurenListe[koenig.value].pos, farbe);
    }

    /** The emptiness loop of istRochadeMoeglich. */
    method FelderLeer(felder: seq<int>) returns (leer: bool)
      requires forall k :: 0 <= k < |felder| ==> 0 <= felder[k] < |brett|
      ensures leer == (forall f :: f in felder ==> brett[f] == EMPTY)
    {
      var i := 0;
      while i < |felder|
        invariant 0 <= i <= |felder|
        invariant forall k :: 0 <= k < i ==> brett[felder[k]] == EMPTY
      {
        if brett[felder[i]] != EMPTY {
          return false;
        }
        i := i + 1;
      }
      return true;
    }

    /** The attack loop of istRochadeMoeglich. */
    method FelderSicher(felder: seq<int>, farbe: int) returns (sicher: bool)
      requires StellungOk(Aktuell())
      ensures sicher == (forall f :: f in felder ==> !Bedroht(Aktuell(), f, farbe))
    {
      ghost var s := Aktuell();
      var i := 0;
      while i < |felder|
        invariant 0 <= i <= |felder|
        invariant forall k :: 0 <= k < i ==> !Bedroht(s, felder[k], farbe)
      {
        var bedroht := IstFeldBedroht(felder[i], farbe);
        if bedroht {
          return false;
        }
        i := i + 1;
      }
      return true;
    }

    /** istRochadeMoeglich. */
    method IstRochadeMoeglich(farbe: int, seite: Seite) returns (moeglich: bool)
      requires StellungOk(Aktuell())
      ensures moeglich == RochadeMoeglich(Aktuell(), farbe, seite)
    {
      ghost var s := Aktuell();
      CastlingSquaresOnBoard(farbe, seite);
      RochadeMoeglichParts(s, farbe, seite);
      var istWeiss := farbe == WHITE;
      var startReihe := if istWeiss then 2 else 9;
      var recht := if seite == Kurz then
          (if istWeiss then rochadeRechte.whiteKingside else rochadeRechte.blackKingside)
        else (if istWeiss then rochadeRechte.whiteQueenside else rochadeRechte.blackQueenside);
      assert recht == RechtFuer(rochadeRechte, farbe, seite);
      if !recht {
        return false;
      }
      var koenigPos := startReihe * 10 + 5;
      assert koenigPos == KoenigStart(farbe);
      var koenig := FigurAuf(figurenListe, KING, farbe, koenigPos);
      if koenig.None? {
        return false;
      }
      var turmPos := if seite == Kurz then startReihe * 10 + 8 else startReihe * 10 + 1;
      assert turmPos == TurmStart(farbe, seite);
      var turm := FigurAuf(figurenListe, ROOK, farbe, turmPos);
      if turm.None? {
        return false;
      }
      var felderZuPruefen :=
        if seite == Kurz then [koenigPos + 1, koenigPos + 2]
        else [koenigPos - 1, koenigPos - 2, koenigPos - 3];
      assert felderZuPruefen == LeereFelder(farbe, seite);
      var leer := FelderLeer(felderZuPruefen);
      if !leer {
        return false;
      }
      var felderFuerSchachPruefung :=
        if seite == Kurz then [koenigPos, koenigPos + 1, koenigPos + 2]
        else [koenigPos, koenigPos - 1, koenigPos - 2];
      assert felderFuerSchachPruefung == SchachFelder(farbe, seite);
      moeglich := FelderSicher(felderFuerSchachPruefung, farbe);
    }

    // -------------------------------------------------------------------
    // Legality, the legal move list and the game status

    /** istZugLegal: plays the move on the board and the roster, asks
        whether the mover's king is in check, and puts both back. */
    method IstZugLegal(zug: Zug) returns (legal: bool)
      requires StellungOk(Aktuell()) && ZugOk(zug)
      modifies this`brett, this`figurenListe
      ensures legal == ZugLegal(old(Aktuell()), zug)
      ensures brett == old(brett) && figurenListe == old(figurenListe)
    {
      var originalBrett := brett;
      var originalFigurenListe := figurenListe;
      var gefunden := TestzugSetzen(zug);
      if gefunden {
        var imSchach := IstKoenigImSchach(zug.farbe);
        brett := originalBrett;
        figurenListe := originalFigurenListe;
        return !imSchach;
      }
      brett := originalBrett;
      figurenListe := originalFigurenListe;
      return false;
    }

    /** The trial part of istZugLegal: the move put on the board, the
        mover's entry moved and a captured enemy flagged. Without an entry
        for the mover the search ends there. */
    method TestzugSetzen(zug: Zug) returns (gefunden: bool)
      requires StellungOk(Aktuell()) && ZugOk(zug)
      modifies this`brett, this`figurenListe
      ensures gefunden == TestStellung(old(Aktuell()), zug).Some?
      ensures gefunden ==> Aktuell() == TestStellung(old(Aktuell()), zug).value
    {
      ghost var test := TestStellung(Aktuell(), zug);
      brett := brett[zug.vonPos := EMPTY];
      brett := brett[zug.nachPos := zug.art * zug.farbe];
      var ziehendeFigur := ZiehendeFigur(figurenListe, zug.vonPos, zug.farbe);
      if ziehendeFigur.Some? {
        var i := ziehendeFigur.value;
        figurenListe := figurenListe[i := figurenListe[i].(pos := zug.nachPos)];
        if zug.geschlagen.Some? {
          var geschlageneFigurTemp := GegnerAuf(figurenListe, zug.nachPos, zug.farbe);
          if geschlageneFigurTemp.Some? {
            var j := geschlageneFigurTemp.value;
            figurenListe := figurenListe[j := figurenListe[j].(captured := true)];
          }
        }
        assert Aktuell() == test.value;
        return true;
      }
      return false;
    }

    /** generiereZuege: the moves of every live piece of `farbe`, in roster
        order, filtered by istZugLegal. */
    method GeneriereZuege(farbe: int) returns (legale: seq<Zug>)
      requires StellungOk(Aktuell())
      modifies this`brett, this`figurenListe
      ensures legale == LegaleZuege(old(Aktuell()), farbe)
      ensures brett == old(brett) && figurenListe == old(figurenListe)
    {
      var s := Aktuell();
      var alleZuege := SammleZuege(farbe);
      PseudoZuegeOk(s, farbe, |s.figuren|);
      legale := FiltereLegale(alleZuege);
    }

    /** The second half of generiereZuege: `.filter(zug => this.istZugLegal(zug))`. */
    method FiltereLegale(alleZuege: seq<Zug>) returns (legale: seq<Zug>)
      requires StellungOk(Aktuell()) && AlleOk(alleZuege)
      modifies this`brett, this`figurenListe
      ensures legale == Legale(old(Aktuell()), alleZuege)
      ensures brett == old(brett) && figurenListe == old(figurenListe)
    {
      var s := Aktuell();
      legale := [];
      var i := 0;
      while i < |alleZuege|
        invariant 0 <= i <= |alleZuege|
        invariant Aktuell() == s
        invariant AlleOk(alleZuege[..i])
        invariant legale == Legale(s, alleZuege[..i])
      {
        var zug := alleZuege[i];
        assert zug in alleZuege;
        var legal := IstZugLegal(zug);
        assert alleZuege[..i + 1] == alleZuege[..i] + [zug];
        assert alleZuege[..i + 1][..i] == alleZuege[..i];
        if legal {
          legale := legale + [zug];
        }
        i := i + 1;
      }
      assert alleZuege[..i] == alleZuege;
    }

    /** The first half of generiereZuege: the moves of each live piece of
        `farbe`, in roster order. */
    method SammleZuege(farbe: int) returns (alleZuege: seq<Zug>)
      requires StellungOk(Aktuell())
      ensures alleZuege == PseudoZuege(Aktuell(), farbe, |figurenListe|)
    {
      var s := Aktuell();
      alleZuege := [];
      var i := 0;
      while i < |figurenListe|
        invariant 0 <= i <= |figurenListe|
        invariant alleZuege == PseudoZuege(s, farbe, i)
      {
        var figur := figurenListe[i];
        PseudoZuegeSchritt(s, farbe, i);
        var eigene := EigeneZuegeSammeln(figur, farbe);
        alleZuege := alleZuege + eigene;
        i := i + 1;
      }
    }

    /** One round of the collecting loop: the moves of a live piece of
        `farbe`, none for any other entry. */
    method EigeneZuegeSammeln(figur: Piece, farbe: int) returns (eigene: seq<Zug>)
      requires StellungOk(Aktuell()) && PieceOk(figur)
      ensures eigene == EigeneZuege(Aktuell(), farbe, figur)
    {
      if !figur.captured && figur.colour == farbe {
        eigene := GeneriereFigurenZuege(figur);
      } else {
        eigene := [];
      }
    }

    /** istSchachmatt. */
    method IstSchachmatt(farbe: int) returns (matt: bool)
      requires StellungOk(Aktuell())
      modifies this`brett, this`figurenListe
      ensures matt == (ImSchach(old(Aktuell()), farbe) && |LegaleZuege(old(Aktuell()), farbe)| == 0)
      ensures brett == old(brett) && figurenListe == old(figurenListe)
    {
      var imSchach := IstKoenigImSchach(farbe);
      if imSchach {
        var legaleZuege := GeneriereZuege(farbe);
        return |legaleZuege| == 0;
      }
      return false;
    }

    /** istPatt. */
    method IstPatt(farbe: int) returns (pattStellung: bool)
      requires StellungOk(Aktuell())
      modifies this`brett, this`figurenListe
      ensures pattStellung == (!ImSchach(old(Aktuell()), farbe) && |LegaleZuege(old(Aktuell()), farbe)| == 0)
      ensures brett == old(brett) && figurenListe == old(figurenListe)
    {
      var imSchach := IstKoenigImSchach(farbe);
      if !imSchach {
        var legaleZuege := GeneriereZuege(farbe);
        return |legaleZuege| == 0;
      }
      return false;
    }

    /** pruefeSpielStatus: sets the two flags for the side to move. */
    method PruefeSpielStatus()
      requires StellungOk(Aktuell())
      modifies this`brett, this`figurenListe, this`endmatt, this`patt
      ensures (endmatt, patt) == Spielstatus(old(Aktuell()))
      ensures brett == old(brett) && figurenListe == old(figurenListe)
      ensures ErstelleZustandSnapshot() == old(ErstelleZustandSnapshot()).(endmatt := endmatt, patt := patt)
    {
      var aktuelleFarbe := if weissAmZug then WHITE else BLACK;
      var matt := IstSchachmatt(aktuelleFarbe);
      if matt {
        endmatt := true;
        patt := false;
      } else {
        var pattStellung := IstPatt(aktuelleFarbe);
        if pattStellung {
          patt := true;
          endmatt := false;
        } else {
          endmatt := false;
          patt := false;
        }
      }
    }

    // -------------------------------------------------------------------
    // Executing, undoing and redoing moves

    /** wiederherstelleZustand. */
    method WiederherstelleZustand(snapshot: Zustand)
      modifies this`brett, this`figurenListe, this`weissAmZug, this`bewertung, this`endmatt, this`patt,
        this`rochadeRechte, this`enPassantTarget, this`halbzugCounter, this`vollzugCounter, this`zugCounter
      ensures ErstelleZustandSnapshot() == snapshot
    {
      brett := snapshot.stellung.brett;
      figurenListe := snapshot.stellung.figuren;
      weissAmZug := snapshot.stellung.weissAmZug;
      bewertung := snapshot.bewertung;
      endmatt := snapshot.endmatt;
      patt := snapshot.patt;
      rochadeRechte := snapshot.stellung.rochadeRechte;
      enPassantTarget := snapshot.stellung.enPassantTarget;
      halbzugCounter := snapshot.halbzugCounter;
      vollzugCounter := snapshot.vollzugCounter;
      zugCounter := snapshot.zugCounter;
    }

    /** fuehreRochadeAus. */
    method FuehreRochadeAus(farbe: int, seite: Seite)
      requires StellungOk(Aktuell())
      modifies this`brett, this`figurenListe
      ensures Aktuell() == RochadeAusfuehren(old(Aktuell()), farbe, seite)
    {
      var istWeiss := farbe == WHITE;
      var startReihe := if istWeiss then 2 else 9;
      var turmStart, turmZiel;
      if seite == Kurz {
        turmStart := startReihe * 10 + 8;
        turmZiel := startReihe * 10 + 6;
      } else {
        turmStart := startReihe * 10 + 1;
        turmZiel := startReihe * 10 + 4;
      }
      CastlingSquaresOnBoard(farbe, seite);
      var turm := FigurAuf(figurenListe, ROOK, farbe, turmStart);
      if turm.Some? {
        brett := brett[turmStart := EMPTY];
        brett := brett[turmZiel := ROOK * farbe];
        figurenListe := figurenListe[turm.value := figurenListe[turm.value].(pos := turmZiel)];
      }
    }

    /** aktualisiereRochadeRechte. */
    method AktualisiereRochadeRechte(zug: Zug)
      modifies this`rochadeRechte
      ensures rochadeRechte == RechteNachZug(old(rochadeRechte), zug)
    {
      if zug.art == KING {
        if zug.farbe == WHITE {
          rochadeRechte := rochadeRechte.(whiteKingside := false, whiteQueenside := false);
        } else {
          rochadeRechte := rochadeRechte.(blackKingside := false, blackQueenside := false);
        }
      }
      if zug.art == ROOK {
        if zug.farbe == WHITE {
          if zug.vonPos == 21 {
            rochadeRechte := rochadeRechte.(whiteQueenside := false);
          }
          if zug.vonPos == 28 {
            rochadeRechte := rochadeRechte.(whiteKingside := false);
          }
        } else {
          if zug.vonPos == 91 {
            rochadeRechte := rochadeRechte.(blackQueenside := false);
          }
          if zug.vonPos == 98 {
            rochadeRechte := rochadeRechte.(blackKingside := false);
          }
        }
      }
    }

    /** The board and roster part of zugAusfuehren: empty the origin, write
        the (promoted) code on the target, move the piece, flag the victim
        (clearing its square for en passant) and promote. */
    method ZieheFigur(zug: Zug)
      requires StellungOk(Aktuell()) && ZugOk(zug)
      modifies this`brett, this`figurenListe
      ensures Aktuell() == BrettUndFiguren(old(Aktuell()), zug)
    {
      brett := brett[zug.vonPos := EMPTY];
      var endgueltigeFigurArt := EndArt(zug);
      brett := brett[zug.nachPos := endgueltigeFigurArt * zug.farbe];
      var figur := ZiehendeFigur(figurenListe, zug.vonPos, zug.farbe);
      if figur.Some? {
        var i := figur.value;
        figurenListe := figurenListe[i := figurenListe[i].(pos := zug.nachPos)];
        if zug.enPassant && zug.geschlagen.Some? {
          var geschlagen := LebendeFigurAuf(figurenListe, zug.geschlagen.value.pos);
          if geschlagen.Some? {
            var j := geschlagen.value;
            figurenListe := figurenListe[j := figurenListe[j].(captured := true)];
            brett := brett[zug.geschlagen.value.pos := EMPTY];
          }
        } else if zug.geschlagen.Some? {
          var geschlagen := GegnerAuf(figurenListe, zug.nachPos, zug.farbe);
          if geschlagen.Some? {
            var j := geschlagen.value;
            figurenListe := figurenListe[j := figurenListe[j].(captured := true)];
          }
        }
        if zug.umwandlungsFigur.Some? && zug.umwandlungsFigur.value != 0 {
          figurenListe := figurenListe[i := figurenListe[i].(kind := zug.umwandlungsFigur.value)];
        }
      }
    }

    /** The position part of zugAusfuehren before the side changes: the
        piece moves, the rook follows on castling, the rights shrink and the
        en-passant target is set or cleared. */
    method StellungFortschreiben(zug: Zug)
      requires StellungOk(Aktuell()) && ZugOk(zug)
      modifies this`brett, this`figurenListe, this`rochadeRechte, this`enPassantTarget
      ensures Aktuell() == ZugStellung(old(Aktuell()), zug).(weissAmZug := old(weissAmZug))
    {
      ZieheFigur(zug);
      ghost var s1 := Aktuell();
      if zug.rochade.Some? {
        FuehreRochadeAus(zug.farbe, zug.rochade.value);
      }
      ghost var s2 := Aktuell();
      assert s2 == if zug.rochade.Some? then RochadeAusfuehren(s1, zug.farbe, zug.rochade.value) else s1;
      AktualisiereRochadeRechte(zug);
      enPassantTarget := None;
      if zug.istBauernDoppelschritt {
        enPassantTarget := Some(if zug.farbe == WHITE then zug.nachPos - 10 else zug.nachPos + 10);
      }
    }

    /** zugAusfuehren from the board update to the move counter: the
        position moves on, the counters advance and the other side is to
        move. */
    method SpieleZug(zug: Zug)
      requires StellungOk(Aktuell()) && ZugOk(zug)
      modifies this`brett, this`figurenListe, this`rochadeRechte, this`enPassantTarget,
        this`halbzugCounter, this`vollzugCounter, this`weissAmZug, this`zugCounter
      ensures ErstelleZustandSnapshot() == Fortschreiben(old(ErstelleZustandSnapshot()), zug)
    {
      StellungFortschreiben(zug);
      ZaehlerFortschreiben(zug);
    }

    /** The tail of zugAusfuehren after the rights and the en-passant target:
        the fifty-move counter, the full-move number, the side to move and
        the move counter. */
    method ZaehlerFortschreiben(zug: Zug)
      modifies this`halbzugCounter, this`vollzugCounter, this`weissAmZug, this`zugCounter
      ensures halbzugCounter == if zug.art == PAWN || zug.geschlagen.Some? then 0 else old(halbzugCounter) + 1
      ensures vollzugCounter == if zug.farbe == BLACK then old(vollzugCounter) + 1 else old(vollzugCounter)
      ensures weissAmZug == !old(weissAmZug) && zugCounter == old(zugCounter) + 1
    {
      if zug.art == PAWN || zug.geschlagen.Some? {
        halbzugCounter := 0;
      } else {
        halbzugCounter := halbzugCounter + 1;
      }
      if zug.farbe == BLACK {
        vollzugCounter := vollzugCounter + 1;
      }
      weissAmZug := !weissAmZug;
      zugCounter := zugCounter + 1;
    }

    /** zugAusfuehren. */
    method ZugAusfuehren(zug: Zug) returns (ok: bool)
      requires Valid() && ZugOk(zug)
      modifies this
      ensures (ok, AktuellePartie()) == Ausfuehrung(old(AktuellePartie()), zug)
      ensures Valid()
    {
      ghost var p := AktuellePartie();
      var legal := IstZugLegal(zug);
      if !legal {
        assert AktuellePartie() == p;
        return false;
      }
      FuehreLegalenZugAus(zug);
      AusfuehrungGelingt(p, zug);
      return true;
    }

    /** zugAusfuehren once the move has passed istZugLegal: snapshot, cut the
        history after the index, play the move, enter it in the history and
        recompute the status. */
    method FuehreLegalenZugAus(zug: Zug)
      requires StellungOk(Aktuell()) && ZugOk(zug)
      requires -1 <= historieIndex < |zugHistorie| <= MAX_HISTORIE
      modifies this
      ensures ErstelleZustandSnapshot() == Ausfuehren(old(ErstelleZustandSnapshot()), zug)
      ensures letzterZug == Some(Eintrag(zug, old(ErstelleZustandSnapshot()), zugCounter, vollzugCounter))
      ensures (zugHistorie, historieIndex) == Verbuchen(old(zugHistorie), old(historieIndex), letzterZug.value)
    {
      ZugSpielenUndVerbuchen(zug);
      ghost var fort := ErstelleZustandSnapshot();
      PruefeSpielStatus();
      assert (endmatt, patt) == Spielstatus(fort.stellung);
    }

    /** zugAusfuehren up to pruefeSpielStatus: snapshot, cut the history
        after the index, play the move and enter it in the history. */
    method ZugSpielenUndVerbuchen(zug: Zug)
      requires StellungOk(Aktuell()) && ZugOk(zug)
      requires -1 <= historieIndex < |zugHistorie| <= MAX_HISTORIE
      modifies this
      ensures ErstelleZustandSnapshot() == Fortschreiben(old(ErstelleZustandSnapshot()), zug)
      ensures letzterZug == Some(Eintrag(zug, old(ErstelleZustandSnapshot()), zugCounter, vollzugCounter))
      ensures (zugHistorie, historieIndex) == Verbuchen(old(zugHistorie), old(historieIndex), letzterZug.value)
    {
      var zustandVorZug := ErstelleZustandSnapshot();
      if historieIndex < |zugHistorie| - 1 {
        zugHistorie := zugHistorie[..historieIndex + 1];
      }
      assert zugHistorie == old(zugHistorie)[..old(historieIndex) + 1];
      SpieleZug(zug);
      var erweiterterZug := Eintrag(zug, zustandVorZug, zugCounter, vollzugCounter);
      letzterZug := Some(erweiterterZug);
      HistorieAnhaengen(old(zugHistorie), old(historieIndex), erweiterterZug);
    }

    /** The append half of the history update in zugAusfuehren: the entry goes
        at the end and the oldest entry is dropped past MAX_HISTORIE; with the
        cut before it, this is Verbuchen. */
    method HistorieAnhaengen(ghost hist: seq<Eintrag>, ghost idx: int, e: Eintrag)
      requires -1 <= idx < |hist| <= MAX_HISTORIE && zugHistorie == hist[..idx + 1]
      modifies this`zugHistorie, this`historieIndex
      ensures (zugHistorie, historieIndex) == Verbuchen(hist, idx, e)
    {
      VerbuchenZerlegt(hist, idx, e);
      zugHistorie := zugHistorie + [e];
      historieIndex := |zugHistorie| - 1;
      if |zugHistorie| > MAX_HISTORIE {
        zugHistorie := zugHistorie[1..];
        historieIndex := historieIndex - 1;
      }
    }

    /** zugZuruecknehmen. */
    method ZugZuruecknehmen() returns (ok: bool)
      requires Valid()
      modifies this
      ensures (ok, AktuellePartie()) == Ruecknahme(old(AktuellePartie()))
      ensures Valid()
    {
      ghost var p := AktuellePartie();
      if |zugHistorie| == 0 || historieIndex < 0 {
        return false;
      }
      var eintrag := zugHistorie[historieIndex];
      assert ZustandOk(eintrag.zustandVorZug);
      WiederherstelleZustand(eintrag.zustandVorZug);
      historieIndex := historieIndex - 1;
      PruefeSpielStatus();
      assert (endmatt, patt) == Spielstatus(eintrag.zustandVorZug.stellung);
      assert AktuellePartie() == Ruecknahme(p).1;
      return true;
    }

    /** zugWiederherstellen. */
    method ZugWiederherstellen() returns (ok: bool)
      requires Valid()
      modifies this
      ensures (ok, AktuellePartie()) == Wiederherstellung(old(AktuellePartie()))
      ensures Valid()
    {
      ghost var p := AktuellePartie();
      if historieIndex >= |zugHistorie| - 1 {
        return false;
      }
      historieIndex := historieIndex + 1;
      var naechsterZug := zugHistorie[historieIndex];
      assert ZustandOk(naechsterZug.zustandVorZug) && ZugOk(naechsterZug.zug);
      EintragNachspielen(naechsterZug);
      return true;
    }

    /** The part of zugWiederherstellen after the index step: restore the
        entry's snapshot and move its piece again. */
    method EintragNachspielen(e: Eintrag)
      requires ZustandOk(e.zustandVorZug) && ZugOk(e.zug)
      modifies this`brett, this`figurenListe, this`weissAmZug, this`bewertung, this`endmatt, this`patt,
        this`rochadeRechte, this`enPassantTarget, this`halbzugCounter, this`vollzugCounter, this`zugCounter
      ensures ErstelleZustandSnapshot() ==
        e.zustandVorZug.(stellung := Nachgezogen(e.zustandVorZug.stellung, e.zug))
    {
      WiederherstelleZustand(e.zustandVorZug);
      ZugNachziehen(e.zug);
    }

    /** The board and roster half of zugWiederherstellen. */
    method ZugNachziehen(zug: Zug)
      requires StellungOk(Aktuell()) && ZugOk(zug)
      modifies this`brett, this`figurenListe
      ensures Aktuell() == Nachgezogen(old(Aktuell()), zug)
    {
      brett := brett[zug.vonPos := EMPTY];
      var endgueltigeFigurArt := EndArt(zug);
      brett := brett[zug.nachPos := endgueltigeFigurArt * zug.farbe];
      var figur := ZiehendeFigur(figurenListe, zug.vonPos, zug.farbe);
      if figur.Some? {
        var i := figur.value;
        ghost var davor := figurenListe;
        figurenListe := figurenListe[i := figurenListe[i].(pos := zug.nachPos)];
        if zug.umwandlungsFigur.Some? && zug.umwandlungsFigur.value != 0 {
          figurenListe := figurenListe[i := figurenListe[i].(kind := zug.umwandlungsFigur.value)];
          assert figurenListe == davor[i := davor[i].(pos := zug.nachPos).(kind := zug.umwandlungsFigur.value)];
        }
      }
    }

    /** istRuecknahmeMoeglich. */
    function IstRuecknahmeMoeglich(): (r: bool)
      reads this
      requires Valid()
      ensures r <==> Ruecknahme(AktuellePartie()).0
    {
      historieIndex >= 0
    }

    /** istWiederherstellungMoeglich. */
    function IstWiederherstellungMoeglich(): (r: bool)
      reads this
      requires Valid()
      ensures r <==> Wiederherstellung(AktuellePartie()).0
    {
      historieIndex < |zugHistorie| - 1
    }

    /** berechneZobristHash over the key table. */
    method BerechneZobristHash() returns (hash: nat)
      ensures hash == ZobristHash(zobristKeys, Aktuell())
    {
      hash := 0;
      var i := 0;
      while i < |figurenListe|
        invariant 0 <= i <= |figurenListe|
        invariant hash == FigurenHash(zobristKeys, figurenListe[..i])
      {
        var figur := figurenListe[i];
        assert figurenListe[..i + 1][..i] == figurenListe[..i];
        if !figur.captured {
          hash := Xor(hash, zobristKeys.figuren(figur.pos, figur.kind * figur.colour));
        }
        i := i + 1;
      }
      assert figurenListe[..i] == figurenListe;
      if !weissAmZug {
        hash := Xor(hash, zobristKeys.schwarzAmZug);
      }
      if rochadeRechte.whiteKingside { hash := Xor(hash, zobristKeys.weissKurz); }
      if rochadeRechte.whiteQueenside { hash := Xor(hash, zobristKeys.weissLang); }
      if rochadeRechte.blackKingside { hash := Xor(hash, zobristKeys.schwarzKurz); }
      if rochadeRechte.blackQueenside { hash := Xor(hash, zobristKeys.schwarzLang); }
      if enPassantTarget.Some? {
        hash := Xor(hash, zobristKeys.enPassant(enPassantTarget.value));
      }
    }

    // -------------------------------------------------------------------
    // Evaluation (bewerteStellung and its terms).

    /** bewerteStellung; `erweitert` is kiEinstellungen.erweiterteBewertung.
        Only the extended evaluation stores its score in `bewertung`. */
    method BewerteStellung(erweitert: bool) returns (r: int)
      requires StellungOk(Aktuell())
      modifies this`bewertung
      ensures r == Bewertung(brett, figurenListe, erweitert)
      ensures bewertung == (if erweitert then r else old(bewertung))
    {
      if !erweitert {
        r := EinfacheMaterialbewertung();
        return;
      }
      r := 0;
      var m := EinfacheMaterialbewertung();
      r := r + m;
      var p := BewertePositionen();
      r := r + p;
      var f := BewerteFigurenSpezifisch();
      r := r + f;
      var s := BewerteBauernStruktur();
      r := r + s;
      var k := BewerteKoenigsSicherheit();
      r := r + k;
      bewertung := r;
    }

    /** einfacheMaterialbewertung. */
    method EinfacheMaterialbewertung() returns (material: int)
      ensures material == Material(figurenListe)
    {
      material := 0;
      var i := 0;
      while i < |figurenListe|
        invariant 0 <= i <= |figurenListe|
        invariant material == Summe(figurenListe[..i], MaterialBeitrag)
      {
        var figur := figurenListe[i];
        SummeSchritt(figurenListe, i, MaterialBeitrag);
        if !figur.captured {
          var figurWert := FigurWert(figur.kind);
          material := material + if figur.colour == WHITE then figurWert else -figurWert;
        }
        i := i + 1;
      }
      assert figurenListe[..i] == figurenListe;
    }

    /** bewertePositionen: the four centre squares, then development and space. */
    method BewertePositionen() returns (r: int)
      requires StellungOk(Aktuell())
      ensures r == Positionen(brett, figurenListe)
    {
      r := 0;
      var zentrumsFelder := ZENTRUM;
      var i := 0;
      while i < |zentrumsFelder|
        invariant 0 <= i <= |zentrumsFelder|
        invariant r == FelderSumme(brett, zentrumsFelder[..i])
      {
        var feld := zentrumsFelder[i];
        assert zentrumsFelder[..i + 1][..i] == zentrumsFelder[..i];
        if brett[feld] != EMPTY && brett[feld] != DUMMY {
          var figurWert := brett[feld];
          if figurWert > 0 {
            r := r + 15;
          } else {
            r := r - 15;
          }
        }
        i := i + 1;
      }
      assert zentrumsFelder[..i] == zentrumsFelder;
      var e := BewerteEntwicklung();
      r := r + e;
      var raum := BewerteRaumvorteil();
      r := r + raum;
    }

    /** bewerteEntwicklung: +10 per white minor or major piece off rank 1,
        -10 per black one off rank 8. */
    method BewerteEntwicklung() returns (bonus: int)
      ensures bonus == Entwicklung(figurenListe)
    {
      bonus := 0;
      var i := 0;
      while i < |figurenListe|
        invariant 0 <= i <= |figurenListe|
        invariant bonus == Summe(figurenListe[..i], EntwicklungBeitrag)
      {
        var figur := figurenListe[i];
        SummeSchritt(figurenListe, i, EntwicklungBeitrag);
        if !(figur.captured || figur.kind == PAWN || figur.kind == KING) {
          if figur.colour == WHITE && !(figur.pos in [21, 22, 23, 24, 25, 26, 27, 28]) {
            bonus := bonus + 10;
          } else if figur.colour == BLACK && !(figur.pos in [91, 92, 93, 94, 95, 96, 97, 98]) {
            bonus := bonus - 10;
          }
        }
        i := i + 1;
      }
      assert figurenListe[..i] == figurenListe;
    }

    /** bewerteRaumvorteil. */
    method BewerteRaumvorteil() returns (raum: int)
      ensures raum == Raum(figurenListe)
    {
      raum := 0;
      var i := 0;
      while i < |figurenListe|
        invariant 0 <= i <= |figurenListe|
        invariant raum == Summe(figurenListe[..i], RaumBeitrag)
      {
        var figur := figurenListe[i];
        SummeSchritt(figurenListe, i, RaumBeitrag);
        if !(figur.captured || figur.kind == KING) {
          var reihe := figur.pos / 10;
          if figur.colour == WHITE && reihe >= 6 {
            raum := raum + 5;
          } else if figur.colour == BLACK && reihe <= 5 {
            raum := raum - 5;
          }
        }
        i := i + 1;
      }
      assert figurenListe[..i] == figurenListe;
    }

    /** bewerteFigurenSpezifisch: the per-kind terms, then the bishop pair. */
    method BewerteFigurenSpezifisch() returns (r: int)
      requires StellungOk(Aktuell())
      ensures r == FigurenSpezifisch(brett, figurenListe)
    {
      r := 0;
      var i := 0;
      while i < |figurenListe|
        invariant 0 <= i <= |figurenListe|
        invariant r == SpezSumme(brett, figurenListe[..i])
      {
        var figur := figurenListe[i];
        assert figurenListe[..i + 1][..i] == figurenListe[..i];
        if !figur.captured {
          var multiplikator := if figur.colour == WHITE then 1 else -1;
          if figur.kind == BISHOP {
            r := r + LaeuferWert(figur.pos) * multiplikator;
          } else if figur.kind == KNIGHT {
            r := r + SpringerWert(figur.pos) * multiplikator;
          } else if figur.kind == ROOK {
            var offen := IstOffeneLinie(figur.pos);
            r := r + (if offen then 20 else 0) * multiplikator;
          } else if figur.kind == PAWN {
            r := r + BauerWert(figur) * multiplikator;
          }
        }
        i := i + 1;
      }
      assert figurenListe[..i] == figurenListe;
      var weiss := HatLaeuferpaar(WHITE);
      if weiss {
        r := r + 30;
      }
      var schwarz := HatLaeuferpaar(BLACK);
      if schwarz {
        r := r - 30;
      }
    }

    /** istOffeneLinie: no pawn of either colour on the file of `position`. */
    method IstOffeneLinie(position: int) returns (offen: bool)
      requires |brett| == BOARD_SIZE
      ensures offen == OffeneLinie(brett, position)
    {
      var datei := position % 10;
      var reihe := 2;
      while reihe <= 9
        invariant 2 <= reihe <= 10
        invariant forall r :: 2 <= r < reihe ==> Abs(brett[r * 10 + datei]) != PAWN
      {
        var feld := reihe * 10 + datei;
        if Abs(brett[feld]) == PAWN {
          return false;
        }
        reihe := reihe + 1;
      }
      return true;
    }

    /** hatLaeuferpaar. */
    method HatLaeuferpaar(farbe: int) returns (paar: bool)
      ensures paar == Laeuferpaar(figurenListe, farbe)
    {
      var laeuferCount := 0;
      var i := 0;
      while i < |figurenListe|
        invariant 0 <= i <= |figurenListe|
        invariant laeuferCount == Summe(figurenListe[..i], IstLaeuferVon(farbe))
      {
        var figur := figurenListe[i];
        SummeSchritt(figurenListe, i, IstLaeuferVon(farbe));
        if !figur.captured && figur.colour == farbe && figur.kind == BISHOP {
          laeuferCount := laeuferCount + 1;
        }
        i := i + 1;
      }
      assert figurenListe[..i] == figurenListe;
      return laeuferCount >= 2;
    }

    /** bewerteBauernStruktur. */
    method BewerteBauernStruktur() returns (r: int)
      requires StellungOk(Aktuell())
      ensures r == BauernStruktur(brett, figurenListe)
    {
      r := 0;
      var d := BewerteDoppelbauern();
      r := r + d;
      var i := BewerteIsolanis();
      r := r + i;
      var f := BewerteFreibauern();
      r := r + f;
    }

    /** bewerteDoppelbauern: file by file, count each colour's pawns. */
    method BewerteDoppelbauern() returns (strafe: int)
      requires |brett| == BOARD_SIZE
      ensures strafe == Doppelbauern(brett)
    {
      strafe := 0;
      var datei := 1;
      while datei <= 8
        invariant 1 <= datei <= 9
        invariant strafe == DoppelbauernBis(brett, datei)
      {
        var weissBauern, schwarzBauern := BauernInLinie(datei);
        ghost var vorher := strafe;
        if weissBauern > 1 {
          strafe := strafe - 10 * (weissBauern - 1);
        }
        if schwarzBauern > 1 {
          strafe := strafe + 10 * (schwarzBauern - 1);
        }
        assert strafe == vorher + DoppelStrafe(weissBauern, schwarzBauern);
        datei := datei + 1;
      }
      DoppelbauernAlleDateien(brett, datei);
    }

    /** The inner loop of bewerteDoppelbauern: each colour's pawns on one
        file, rows 2..9. */
    method BauernInLinie(datei: int) returns (weissBauern: nat, schwarzBauern: nat)
      requires |brett| == BOARD_SIZE && 1 <= datei <= 8
      ensures weissBauern == BauernZahl(brett, datei, PAWN)
      ensures schwarzBauern == BauernZahl(brett, datei, -PAWN)
    {
      weissBauern, schwarzBauern := 0, 0;
      var reihe := 2;
      while reihe <= 9
        invariant 2 <= reihe <= 10
        invariant weissBauern == InLinie(brett, datei, PAWN, reihe)
        invariant schwarzBauern == InLinie(brett, datei, -PAWN, reihe)
      {
        var feld := reihe * 10 + datei;
        var figurWert := brett[feld];
        if figurWert == PAWN {
          weissBauern := weissBauern + 1;
        } else if figurWert == -PAWN {
          schwarzBauern := schwarzBauern + 1;
        }
        reihe := reihe + 1;
      }
      BauernZahlAlleReihen(brett, datei, PAWN, reihe);
      BauernZahlAlleReihen(brett, datei, -PAWN, reihe);
    }

    /** bewerteIsolanis: -15 per white and +15 per black pawn with no pawn of
        its colour on a neighbouring file. */
    method BewerteIsolanis() returns (strafe: int)
      requires |brett| == BOARD_SIZE
      ensures strafe == Isolanis(brett, figurenListe)
    {
      strafe := 0;
      var i := 0;
      while i < |figurenListe|
        invariant 0 <= i <= |figurenListe|
        invariant strafe == Isolanis(brett, figurenListe[..i])
      {
        var figur := figurenListe[i];
        assert figurenListe[..i + 1][..i] == figurenListe[..i];
        if !(figur.captured || figur.kind != PAWN) {
          var datei := figur.pos % 10;
          var hatNachbarBauer := HatNachbarBauer(datei, figur.colour);
          if !hatNachbarBauer {
            if figur.colour == WHITE {
              strafe := strafe - 15;
            } else {
              strafe := strafe + 15;
            }
          }
        }
        i := i + 1;
      }
      assert figurenListe[..i] == figurenListe;
    }

    /** hatNachbarBauer: the files datei - 1 and datei + 1 that lie in 1..8,
        rows 2..9, searched for a pawn of `farbe`. */
    method HatNachbarBauer(datei: int, farbe: int) returns (gefunden: bool)
      requires |brett| == BOARD_SIZE
      ensures gefunden == NachbarBauer(brett, datei, farbe)
    {
      var nachbarDateien := [datei - 1, datei + 1];
      var j := 0;
      while j < 2
        invariant 0 <= j <= 2
        invariant forall jj :: 0 <= jj < j && 1 <= nachbarDateien[jj] <= 8 ==>
          !BauerAufLinie(brett, nachbarDateien[jj], farbe)
      {
        var nd := nachbarDateien[j];
        if 1 <= nd <= 8 {
          var reihe := 2;
          while reihe <= 9
            invariant 2 <= reihe <= 10
            invariant forall r :: 2 <= r < reihe ==> brett[r * 10 + nd] != PAWN * farbe
          {
            var feld := reihe * 10 + nd;
            if brett[feld] == PAWN * farbe {
              return true;
            }
            reihe := reihe + 1;
          }
        }
        j := j + 1;
      }
      assert nachbarDateien[0] == datei - 1 && nachbarDateien[1] == datei + 1;
      return false;
    }

    /** bewerteFreibauern: +20 per white and -20 per black passed pawn. */
    method BewerteFreibauern() returns (bonus: int)
      requires StellungOk(Aktuell())
      ensures bonus == Freibauern(brett, figurenListe)
    {
      bonus := 0;
      var i := 0;
      while i < |figurenListe|
        invariant 0 <= i <= |figurenListe|
        invariant bonus == Freibauern(brett, figurenListe[..i])
      {
        var figur := figurenListe[i];
        assert figurenListe[..i + 1][..i] == figurenListe[..i];
        if !(figur.captured || figur.kind != PAWN) {
          var frei := IstFreibauer(figur);
          if frei {
            if figur.colour == WHITE {
              bonus := bonus + 20;
            } else {
              bonus := bonus - 20;
            }
          }
        }
        i := i + 1;
      }
      assert figurenListe[..i] == figurenListe;
    }

    /** istFreibauer: walk forward to the border; an enemy pawn ahead or
        diagonally ahead on any row makes the pawn not passed. */
    method IstFreibauer(figur: Piece) returns (frei: bool)
      requires Bordered(brett) && PieceOk(figur)
      ensures frei == Freibauer(brett, figur)
    {
      var vorwaerts := if figur.colour == WHITE then 10 else -10;
      ghost var feld := figur.pos;
      var reiheOffset := 1;
      while reiheOffset <= 8
        invariant 1 <= reiheOffset <= 9 && IsValidPosition(feld)
        invariant feld == figur.pos + vorwaerts * (reiheOffset - 1)
        invariant Freibauer(brett, figur) == FreiAb(brett, feld, vorwaerts, figur.colour, reiheOffset)
      {
        var feldVor := figur.pos + vorwaerts * reiheOffset;
        assert feldVor == feld + vorwaerts;
        StepInside(feld, vorwaerts);
        if brett[feldVor] == DUMMY {
          break;
        }
        if Abs(brett[feldVor]) == PAWN && brett[feldVor] * figur.colour < 0 {
          return false;
        }
        var seiten := [-1, 1];
        var j := 0;
        while j < 2
          invariant 0 <= j <= 2
          invariant forall jj :: 0 <= jj < j ==>
            !(brett[feldVor + seiten[jj]] != DUMMY && GegnerBauer(brett[feldVor + seiten[jj]], figur.colour))
        {
          var feldDiag := feldVor + seiten[j];
          if brett[feldDiag] != DUMMY && Abs(brett[feldDiag]) == PAWN && brett[feldDiag] * figur.colour < 0 {
            return false;
          }
          j := j + 1;
        }
        assert seiten[0] == -1 && seiten[1] == 1;
        feld := feldVor;
        reiheOffset := reiheOffset + 1;
      }
      return true;
    }

    /** bewerteKoenigsSicherheit. */
    method BewerteKoenigsSicherheit() returns (r: int)
      requires StellungOk(Aktuell())
      ensures r == KoenigsSicherheit(brett, figurenListe)
    {
      r := 0;
      var s := BewerteBauernschild();
      r := r + s;
      var a := BewerteKoenigsAngriff();
      r := r + a;
    }

    /** bewerteBauernschild: for White, then Black. */
    method BewerteBauernschild() returns (r: int)
      requires StellungOk(Aktuell())
      ensures r == Bauernschild(brett, figurenListe)
    {
      r := 0;
      var farben := [WHITE, BLACK];
      var j := 0;
      while j < 2
        invariant 0 <= j <= 2
        invariant r == (if j >= 1 then SchildTerm(brett, figurenListe, WHITE) else 0) +
                       (if j >= 2 then SchildTerm(brett, figurenListe, BLACK) else 0)
      {
        var t := SchildFuer(farben[j]);
        r := r + t;
        j := j + 1;
      }
    }

    /** One pass of bewerteBauernschild's colour loop: the first live king of
        the colour, then its shield squares from getBauernschildFelder. */
    method SchildFuer(farbe: int) returns (t: int)
      requires StellungOk(Aktuell())
      ensures t == SchildTerm(brett, figurenListe, farbe)
    {
      var k := FindIndex(figurenListe, IstKoenigVon(farbe));
      if k.None? {
        return 0;
      }
      var koenig := figurenListe[k.value];
      assert PieceOk(koenig);
      var multiplikator := if farbe == WHITE then 1 else -1;
      var richtung := if farbe == WHITE then -10 else 10;
      var felder := [koenig.pos + richtung - 1, koenig.pos + richtung + 1];
      var bauernAnzahl := 0;
      var j := 0;
      while j < 2
        invariant 0 <= j <= 2
        invariant bauernAnzahl == (if j >= 1 && brett[felder[0]] == PAWN * farbe then 1 else 0) +
                                  (if j >= 2 && brett[felder[1]] == PAWN * farbe then 1 else 0)
      {
        var feld := felder[j];
        if brett[feld] != DUMMY && brett[feld] == PAWN * farbe {
          bauernAnzahl := bauernAnzahl + 1;
        }
        j := j + 1;
      }
      t := bauernAnzahl * 5 * multiplikator;
    }

    /** bewerteKoenigsAngriff: for White, then Black. */
    method BewerteKoenigsAngriff() returns (r: int)
      ensures r == KoenigsAngriff(figurenListe)
    {
      r := 0;
      var farben := [WHITE, BLACK];
      var j := 0;
      while j < 2
        invariant 0 <= j <= 2
        invariant r == (if j >= 1 then AngriffsTerm(figurenListe, WHITE) else 0) +
                       (if j >= 2 then AngriffsTerm(figurenListe, BLACK) else 0)
      {
        var t := AngriffFuer(farben[j]);
        r := r + t;
        j := j + 1;
      }
    }

    /** One pass of bewerteKoenigsAngriff's colour loop: count the live enemy
        pieces within 30 square numbers of the king. */
    method AngriffFuer(farbe: int) returns (t: int)
      ensures t == AngriffsTerm(figurenListe, farbe)
    {
      var k := FindIndex(figurenListe, IstKoenigVon(farbe));
      if k.None? {
        return 0;
      }
      var koenigPos := figurenListe[k.value].pos;
      var gegnerFarbe := -farbe;
      var multiplikator := if farbe == WHITE then -1 else 1;
      var angreifer := 0;
      var i := 0;
      while i < |figurenListe|
        invariant 0 <= i <= |figurenListe|
        invariant angreifer == Summe(figurenListe[..i], IstAngreifer(gegnerFarbe, koenigPos))
      {
        var figur := figurenListe[i];
        SummeSchritt(figurenListe, i, IstAngreifer(gegnerFarbe, koenigPos));
        if !(figur.captured || figur.colour != gegnerFarbe) {
          if Abs(figur.pos - koenigPos) <= 30 {
            angreifer := angreifer + 1;
          }
        }
        i := i + 1;
      }
      assert figurenListe[..i] == figurenListe;
      t := angreifer * 10 * multiplikator;
    }
  }
}
