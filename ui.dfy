/** The position editor and its validator in the browser UI
    (docs/js/chess-ui.js): editorFigurPlatzieren, editorFigurEntfernen and
    editorLeeresBrett change the JS engine's board, roster, castling rights
    and en-passant target in place; findeStellungsFehler counts kings, looks
    for pawns on a back row and asks the engine whether a king is in check.
    The DOM updates and messages around them are not modelled. */
module ChessUi {
  import opened Common
  import opened JsModel
  import JsEngine
  import Notation

  // ---------------------------------------------------------------------
  // The validator as functions of the engine's position

  /** One entry of the error list, one constructor per message. */
  datatype Fehler =
    | KoenigeWeiss(anzahl: nat)
    | KoenigeSchwarz(anzahl: nat)
    | BauerAufGrundreihe
    | WeissImSchach
    | SchwarzImSchach

  /** The number of roster entries that satisfy `f`. */
  function Anzahl(fs: seq<Piece>, f: Piece -> bool): (n: nat)
    ensures n <= |fs|
  {
    if |fs| == 0 then 0 else Anzahl(fs[..|fs| - 1], f) + (if f(fs[|fs| - 1]) then 1 else 0)
  }

  /** A live white king. */
  predicate IstWeisserKoenig(f: Piece)
  {
    !f.captured && f.kind == KING && f.colour == WHITE
  }

  /** A live king the counting loop books as black: any colour but
      white. */
  predicate IstSchwarzerKoenig(f: Piece)
  {
    !f.captured && f.kind == KING && f.colour != WHITE
  }

  /** A live pawn on row 2 or row 9. */
  predicate BauerAufRand(f: Piece)
  {
    !f.captured && f.kind == PAWN && (f.pos / 10 == 2 || f.pos / 10 == 9)
  }

  predicate GrundreihenBauer(fs: seq<Piece>)
  {
    exists i :: 0 <= i < |fs| && BauerAufRand(fs[i])
  }

  /** findeStellungsFehler: the king counts when they are not 1, one entry
      for any pawn on a back row, and a check only for a colour with
      exactly one king. */
  function StellungsFehler(s: Stellung): seq<Fehler>
    requires StellungOk(s)
  {
    var weiss := Anzahl(s.figuren, IstWeisserKoenig);
    var schwarz := Anzahl(s.figuren, IstSchwarzerKoenig);
    (if weiss != 1 then [KoenigeWeiss(weiss)] else []) +
    (if schwarz != 1 then [KoenigeSchwarz(schwarz)] else []) +
    (if GrundreihenBauer(s.figuren) then [BauerAufGrundreihe] else []) +
    (if weiss == 1 && ImSchach(s, WHITE) then [WeissImSchach] else []) +
    (if schwarz == 1 && ImSchach(s, BLACK) then [SchwarzImSchach] else [])
  }

  /** Exactly one entry satisfies `f`. */
  predicate GenauEiner(fs: seq<Piece>, f: Piece -> bool)
  {
    exists i :: 0 <= i < |fs| && f(fs[i]) && forall j :: 0 <= j < |fs| && j != i ==> !f(fs[j])
  }

  /** A count of one means exactly one entry. */
  lemma {:induction false} AnzahlEins(fs: seq<Piece>, f: Piece -> bool)
    ensures Anzahl(fs, f) == 1 <==> GenauEiner(fs, f)
  {
    if |fs| > 0 {
      var front, last := fs[..|fs| - 1], fs[|fs| - 1];
      AnzahlEins(front, f);
      AnzahlNull(front, f);
      if Anzahl(fs, f) == 1 {
        if f(last) {
          assert forall j :: 0 <= j < |fs| - 1 ==> fs[j] == front[j];
          assert f(fs[|fs| - 1]) && forall j :: 0 <= j < |fs| && j != |fs| - 1 ==> !f(fs[j]);
        } else {
          var i :| 0 <= i < |front| && f(front[i]) && forall j :: 0 <= j < |front| && j != i ==> !f(front[j]);
          assert f(fs[i]) && forall j :: 0 <= j < |fs| && j != i ==> !f(fs[j]);
        }
      }
      if GenauEiner(fs, f) {
        var i :| 0 <= i < |fs| && f(fs[i]) && forall j :: 0 <= j < |fs| && j != i ==> !f(fs[j]);
        if i == |fs| - 1 {
          assert forall j :: 0 <= j < |front| ==> !f(front[j]);
        } else {
          assert f(front[i]) && forall j :: 0 <= j < |front| && j != i ==> !f(front[j]);
        }
      }
    }
  }

  /** A count of zero means no entry. */
  lemma {:induction false} AnzahlNull(fs: seq<Piece>, f: Piece -> bool)
    ensures Anzahl(fs, f) == 0 <==> forall j :: 0 <= j < |fs| ==> !f(fs[j])
  {
    if |fs| > 0 {
      AnzahlNull(fs[..|fs| - 1], f);
    }
  }

  /** istStellungValide holds exactly when each colour has one live king,
      no live pawn stands on row 2 or 9, and neither king is in check. */
  lemma StellungValideBedeutung(s: Stellung)
    requires StellungOk(s)
    ensures StellungsFehler(s) == [] <==>
      GenauEiner(s.figuren, IstWeisserKoenig) && GenauEiner(s.figuren, IstSchwarzerKoenig) &&
      (forall i :: 0 <= i < |s.figuren| ==> !BauerAufRand(s.figuren[i])) &&
      !ImSchach(s, WHITE) && !ImSchach(s, BLACK)
  {
    AnzahlEins(s.figuren, IstWeisserKoenig);
    AnzahlEins(s.figuren, IstSchwarzerKoenig);
  }

  // ---------------------------------------------------------------------
  // The editor mutations as functions of the old values

  /** The filter of editorFigurEntfernen: every entry except the live ones
      on `position`, in order. */
  function OhneFigurAuf(fs: seq<Piece>, position: int): (r: seq<Piece>)
    ensures |r| <= |fs|
  {
    if |fs| == 0 then []
    else
      var last := fs[|fs| - 1];
      OhneFigurAuf(fs[..|fs| - 1], position) + (if last.pos == position && !last.captured then [] else [last])
  }

  /** The filter keeps exactly the entries that are not live on
      `position`. */
  lemma {:induction false} OhneFigurAufBedeutung(fs: seq<Piece>, position: int)
    ensures forall f :: f in OhneFigurAuf(fs, position) <==> f in fs && !(f.pos == position && !f.captured)
  {
    if |fs| > 0 {
      OhneFigurAufBedeutung(fs[..|fs| - 1], position);
      assert fs == fs[..|fs| - 1] + [fs[|fs| - 1]];
    }
  }

  /** editorLeeresBrett's loop: every cell that is not DUMMY becomes
      EMPTY. */
  function Geleert(b: seq<int>): (r: seq<int>)
    ensures |r| == |b|
  {
    seq(|b|, p requires 0 <= p < |b| => if b[p] != DUMMY then EMPTY else b[p])
  }

  /** After editorFigurPlatzieren the square holds the new code and the new
      entry is the only live one on it; the other entries are the old ones
      not live on the square. */
  lemma PlatzierenAllein(fs: seq<Piece>, position: int, figurCode: string)
    ensures var (farbe, art) := Notation.ParseFigurCode(figurCode);
      var r := OhneFigurAuf(fs, position) + [Piece(art, farbe, position, false)];
      (forall i :: 0 <= i < |r| ==> (r[i].pos == position && !r[i].captured <==> i == |r| - 1)) &&
      (forall f :: f in r[..|r| - 1] <==> f in fs && !(f.pos == position && !f.captured))
  {
    OhneFigurAufBedeutung(fs, position);
    var (farbe, art) := Notation.ParseFigurCode(figurCode);
    var r := OhneFigurAuf(fs, position) + [Piece(art, farbe, position, false)];
    assert r[..|r| - 1] == OhneFigurAuf(fs, position);
    forall i | 0 <= i < |r| - 1 ensures !(r[i].pos == position && !r[i].captured) {
      assert r[i] in OhneFigurAuf(fs, position);
    }
  }

  /** A roster on playable squares stays on playable squares after the
      editor removes or places a piece on a playable square. */
  lemma EditorRosterOk(fs: seq<Piece>, position: int, figurCode: string)
    requires RosterOk(fs) && IsValidPosition(position)
    ensures RosterOk(OhneFigurAuf(fs, position))
    ensures var (farbe, art) := Notation.ParseFigurCode(figurCode);
      RosterOk(OhneFigurAuf(fs, position) + [Piece(art, farbe, position, false)])
  {
    OhneFigurAufBedeutung(fs, position);
    var r := OhneFigurAuf(fs, position);
    forall i | 0 <= i < |r| ensures PieceOk(r[i]) {
      assert r[i] in r;
      var k :| 0 <= k < |fs| && fs[k] == r[i];
    }
  }

  /** editorLeeresBrett keeps the border, and on a board whose playable
      cells hold no DUMMY it leaves exactly the empty mailbox. */
  lemma GeleertIstLeer(b: seq<int>)
    requires Bordered(b)
    ensures Bordered(Geleert(b))
    ensures forall p :: 0 <= p < |b| ==> (Geleert(b)[p] == DUMMY <==> b[p] == DUMMY)
    ensures (forall p :: IsValidPosition(p) ==> b[p] != DUMMY) ==> IsEmptyMailbox(Geleert(b))
  {
  }

  /** On the cleared position the validator reports no king of either
      colour, and nothing else. */
  lemma LeeresBrettFehler(s: Stellung)
    requires StellungOk(s) && s.figuren == []
    ensures StellungsFehler(s) == [KoenigeWeiss(0), KoenigeSchwarz(0)]
  {
  }

  // ---------------------------------------------------------------------
  // The UI class

  /** ChessUI, reduced to the global engine its editor and validator work
      on. */
  class ChessUi {
    const engine: JsEngine.ChesstegEngine

    constructor (engine: JsEngine.ChesstegEngine)
      ensures this.engine == engine
    {
      this.engine := engine;
    }

    /** The king-counting loop of findeStellungsFehler. */
    method KoenigeZaehlen() returns (weissKoenige: nat, schwarzKoenige: nat)
      ensures weissKoenige == Anzahl(engine.figurenListe, IstWeisserKoenig)
      ensures schwarzKoenige == Anzahl(engine.figurenListe, IstSchwarzerKoenig)
    {
      var fs := engine.figurenListe;
      weissKoenige, schwarzKoenige := 0, 0;
      for i := 0 to |fs|
        invariant weissKoenige == Anzahl(fs[..i], IstWeisserKoenig)
        invariant schwarzKoenige == Anzahl(fs[..i], IstSchwarzerKoenig)
      {
        assert fs[..i + 1][..i] == fs[..i];
        var figur := fs[i];
        if !figur.captured {
          if figur.kind == KING {
            if figur.colour == WHITE {
              weissKoenige := weissKoenige + 1;
            } else {
              schwarzKoenige := schwarzKoenige + 1;
            }
          }
        }
      }
      assert fs[..|fs|] == fs;
    }

    /** The back-row loop of findeStellungsFehler, which stops at the first
        pawn it finds there. */
    method GrundreihenBauerSuchen() returns (gefunden: bool)
      ensures gefunden == GrundreihenBauer(engine.figurenListe)
    {
      var fs := engine.figurenListe;
      for i := 0 to |fs|
        invariant forall k :: 0 <= k < i ==> !BauerAufRand(fs[k])
      {
        var figur := fs[i];
        if !figur.captured {
          var reihe := figur.pos / 10;
          if figur.kind == PAWN {
            if reihe == 2 || reihe == 9 {
              return true;
            }
          }
        }
      }
      return false;
    }

    /** findeStellungsFehler. */
    method FindeStellungsFehler() returns (fehler: seq<Fehler>)
      requires StellungOk(engine.Aktuell())
      ensures fehler == StellungsFehler(engine.Aktuell())
    {
      var weissKoenige, schwarzKoenige := KoenigeZaehlen();
      fehler := ZaehlFehler(weissKoenige, schwarzKoenige);
      var schach := SchachFehler(weissKoenige, schwarzKoenige);
      fehler := fehler + schach;
    }

    /** The king counts and the back-row test of findeStellungsFehler. */
    method ZaehlFehler(weissKoenige: nat, schwarzKoenige: nat) returns (fehler: seq<Fehler>)
      ensures fehler == (if weissKoenige != 1 then [KoenigeWeiss(weissKoenige)] else []) +
                        (if schwarzKoenige != 1 then [KoenigeSchwarz(schwarzKoenige)] else []) +
                        (if GrundreihenBauer(engine.figurenListe) then [BauerAufGrundreihe] else [])
    {
      fehler := [];
      if weissKoenige != 1 {
        fehler := fehler + [KoenigeWeiss(weissKoenige)];
      }
      if schwarzKoenige != 1 {
        fehler := fehler + [KoenigeSchwarz(schwarzKoenige)];
      }
      var bauer := GrundreihenBauerSuchen();
      if bauer {
        fehler := fehler + [BauerAufGrundreihe];
      }
    }

    /** The two check tests of findeStellungsFehler, each asked only for a
        colour with exactly one king. */
    method SchachFehler(weissKoenige: nat, schwarzKoenige: nat) returns (fehler: seq<Fehler>)
      requires StellungOk(engine.Aktuell())
      ensures fehler == (if weissKoenige == 1 && ImSchach(engine.Aktuell(), WHITE) then [WeissImSchach] else []) +
                        (if schwarzKoenige == 1 && ImSchach(engine.Aktuell(), BLACK) then [SchwarzImSchach] else [])
    {
      fehler := [];
      if weissKoenige == 1 {
        var imSchach := engine.IstKoenigImSchach(WHITE);
        if imSchach {
          fehler := fehler + [WeissImSchach];
        }
      }
      if schwarzKoenige == 1 {
        var imSchach := engine.IstKoenigImSchach(BLACK);
        if imSchach {
          fehler := fehler + [SchwarzImSchach];
        }
      }
    }

    /** istStellungValide: the error list is empty. */
    method IstStellungValide() returns (valide: bool)
      requires StellungOk(engine.Aktuell())
      ensures valide == (StellungsFehler(engine.Aktuell()) == [])
    {
      var fehler := FindeStellungsFehler();
      return |fehler| == 0;
    }

    /** editorFigurEntfernen: the cell becomes EMPTY and the live entries on
        it leave the roster. */
    method EditorFigurEntfernen(position: int)
      requires 0 <= position < |engine.brett|
      modifies engine`brett, engine`figurenListe
      ensures engine.brett == old(engine.brett)[position := EMPTY]
      ensures engine.figurenListe == OhneFigurAuf(old(engine.figurenListe), position)
    {
      engine.brett := engine.brett[position := EMPTY];
      engine.figurenListe := OhneFigurAuf(engine.figurenListe, position);
    }

    /** editorFigurPlatzieren: whatever stood on the square is removed, then
        the parsed piece's code is written there and a live entry for it is
        appended. */
    method EditorFigurPlatzieren(position: int, figurCode: string)
      requires 0 <= position < |engine.brett|
      modifies engine`brett, engine`figurenListe
      ensures var (farbe, art) := Notation.ParseFigurCode(figurCode);
        engine.brett == old(engine.brett)[position := art * farbe] &&
        engine.figurenListe == OhneFigurAuf(old(engine.figurenListe), position) + [Piece(art, farbe, position, false)]
    {
      EditorFigurEntfernen(position);
      var (farbe, art) := Notation.ParseFigurCode(figurCode);
      var figurWert := art * farbe;
      engine.brett := engine.brett[position := figurWert];
      engine.figurenListe := engine.figurenListe + [Piece(art, farbe, position, false)];
    }

    /** editorLeeresBrett: every cell that is not DUMMY becomes EMPTY, the
        roster is emptied, all castling rights are dropped and the
        en-passant target is cleared. */
    method EditorLeeresBrett()
      modifies engine`brett, engine`figurenListe, engine`rochadeRechte, engine`enPassantTarget
      ensures engine.brett == Geleert(old(engine.brett))
      ensures engine.figurenListe == [] && engine.rochadeRechte == NO_RIGHTS && engine.enPassantTarget == None
    {
      ghost var b0 := engine.brett;
      var pos := 0;
      while pos < |engine.brett|
        invariant 0 <= pos <= |engine.brett| == |b0|
        invariant forall p :: 0 <= p < pos ==> engine.brett[p] == Geleert(b0)[p]
        invariant forall p :: pos <= p < |b0| ==> engine.brett[p] == b0[p]
      {
        if engine.brett[pos] != DUMMY {
          engine.brett := engine.brett[pos := EMPTY];
        }
        pos := pos + 1;
      }
      engine.figurenListe := [];
      engine.rochadeRechte := NO_RIGHTS;
      engine.enPassantTarget := None;
    }
  }
}
