/** Algebraic notation and piece codes.
    - PositionToNotation, NotationToPosition, PieceCode, PieceName:
      the helpers of chessteg_modular/engine/__init__.py.
    - JsPositionToNotation, JsNotationToPosition, BoardPosition,
      ParseFigurCode, FigurCode: the pure helpers of the browser UI
      (chess-ui.js); the JS engine's own positionZuNotation is the same
      function as the UI's.
    Strings are sequences of characters; lower-casing is modelled on the
    ASCII letters, which are the only characters whose lower case is one of
    the file letters a-h. */
module Notation {
  import opened Common

  const FILES: string := "abcdefgh"
  const DIGITS: string := "0123456789"

  predicate IsDigit(c: char) { '0' <= c <= '9' }

  function DigitValue(c: char): (d: int)
    requires IsDigit(c)
    ensures 0 <= d <= 9 && DIGITS[d] == c
  {
    c as int - '0' as int
  }

  /** Decimal text of a natural number, without leading zeros. */
  function NatString(n: nat): (s: string)
    ensures |s| >= 1 && (n < 10 <==> |s| == 1)
    ensures forall i :: 0 <= i < |s| ==> IsDigit(s[i])
    decreases n
  {
    if n < 10 then [DIGITS[n]] else NatString(n / 10) + [DIGITS[n % 10]]
  }

  /** Decimal text of an integer, as JS template strings and Python
      f-strings print it. */
  function IntString(n: int): string
  {
    if n < 0 then "-" + NatString(-n) else NatString(n)
  }

  function Lower(c: char): (l: char)
    ensures 'a' <= l <= 'h' <==> 'a' <= c <= 'h' || 'A' <= c <= 'H'
  {
    if 'A' <= c <= 'Z' then (c as int + 32) as char else c
  }

  /** The file table {'a': 1, ..., 'h': 8}, looked up after lower-casing. */
  function FileNumber(c: char): (r: Option<int>)
    ensures r.Some? <==> 'a' <= Lower(c) <= 'h'
    ensures r.Some? ==> 1 <= r.value <= 8 && FILES[r.value - 1] == Lower(c)
  {
    var l := Lower(c);
    if 'a' <= l <= 'h' then Some(l as int - 'a' as int + 1) else None
  }

  // ---------------------------------------------------------------------
  // engine/__init__.py

  /** position_to_notation: "??" off the playable area, otherwise the file
      letter followed by the rank digit. */
  function PositionToNotation(position: int): (s: string)
    ensures s == "??" <==> !IsValidPosition(position)
    ensures IsValidPosition(position) ==>
      |s| == 2 && s[0] == FILES[Col(position) - 1] && s[1] == DIGITS[Row(position) - 1] &&
      'a' <= s[0] <= 'h' && '1' <= s[1] <= '8'
  {
    var row := position / 10;
    var file := position % 10;
    if 1 <= file <= 8 && 2 <= row <= 9 then [FILES[file - 1]] + IntString(row - 1)
    else "??"
  }

  /** notation_to_position: None unless the text has length 2, a file
      letter a-h in either case and a digit rank. */
  function NotationToPosition(notation: string): (r: Option<int>)
    ensures r.Some? <==> |notation| == 2 && FileNumber(notation[0]).Some? && IsDigit(notation[1])
    ensures r.Some? ==>
      r.value == (DigitValue(notation[1]) + 1) * 10 + FileNumber(notation[0]).value &&
      Col(r.value) == FileNumber(notation[0]).value && Row(r.value) == DigitValue(notation[1]) + 1
  {
    if |notation| != 2 then None
    else
      var fileChar := FileNumber(notation[0]);
      if fileChar.Some? && IsDigit(notation[1]) then
        Some((DigitValue(notation[1]) + 1) * 10 + fileChar.value)
      else None
  }

  lemma NotationRoundTrip(p: int)
    requires IsValidPosition(p)
    ensures NotationToPosition(PositionToNotation(p)) == Some(p)
  {
    var s := PositionToNotation(p);
    assert FileNumber(s[0]) == Some(Col(p));
    assert DigitValue(s[1]) == Row(p) - 1;
  }

  /** The other direction: a lower-case file and a rank 1-8 come back
      unchanged. */
  lemma PositionRoundTrip(notation: string)
    requires |notation| == 2 && 'a' <= notation[0] <= 'h' && '1' <= notation[1] <= '8'
    ensures NotationToPosition(notation).Some?
    ensures PositionToNotation(NotationToPosition(notation).value) == notation
  {
    var p := NotationToPosition(notation).value;
    assert IsValidPosition(p);
    var s := PositionToNotation(p);
    assert s[0] == notation[0] && s[1] == notation[1];
  }

  /** get_piece_code: None for EMPTY and DUMMY; otherwise 'w' or 'b'
      followed by P, R, B, N, Q, K, or '?' for an unknown kind. */
  function PieceCode(value: int): (r: Option<string>)
    ensures r.None? <==> value == EMPTY || value == DUMMY
    ensures r.Some? ==> |r.value| == 2 && (r.value[0] == 'w' <==> value > 0) && (r.value[0] == 'b' <==> value < 0)
    ensures r.Some? && IsKind(if value < 0 then -value else value) ==> r.value[1] != '?'
  {
    if value == EMPTY || value == DUMMY then None
    else
      var colour := if value > 0 then 'w' else 'b';
      var kind := if value < 0 then -value else value;
      var letter :=
        if kind == PAWN then 'P' else if kind == ROOK then 'R' else if kind == BISHOP then 'B'
        else if kind == KNIGHT then 'N' else if kind == QUEEN then 'Q' else if kind == KING then 'K'
        else '?';
      Some([colour, letter])
  }

  function KindName(kind: int): string
  {
    if kind == PAWN then "Pawn" else if kind == ROOK then "Rook" else if kind == BISHOP then "Bishop"
    else if kind == KNIGHT then "Knight" else if kind == QUEEN then "Queen" else if kind == KING then "King"
    else "Unknown"
  }

  /** get_piece_name: "Empty", "Dummy", or colour and kind name. */
  function PieceName(value: int): (s: string)
    ensures value == EMPTY ==> s == "Empty"
    ensures value == DUMMY ==> s == "Dummy"
    ensures value != EMPTY && value != DUMMY ==>
      s == (if value > 0 then "White " else "Black ") + KindName(if value < 0 then -value else value)
  {
    if value == EMPTY then "Empty"
    else if value == DUMMY then "Dummy"
    else
      var colour := if value > 0 then "White" else "Black";
      colour + " " + KindName(if value < 0 then -value else value)
  }

  lemma PieceNameKnownKinds(kind: int, colour: int)
    requires IsKind(kind) && IsColour(colour)
    ensures PieceName(kind * colour) != "Empty" && PieceName(kind * colour) != "Dummy"
    ensures KindName(kind) != "Unknown"
  {
  }

  // ---------------------------------------------------------------------
  // chess-ui.js (and chessteg.js positionZuNotation)

  /** positionZuNotation: no validity check; the file table has '' at
      columns 0 and 9, and the rank is printed as a number. */
  function JsPositionToNotation(position: int): (s: string)
    requires position >= 0
    ensures IsValidPosition(position) ==> s == PositionToNotation(position)
  {
    var reihe := position / 10;
    var datei := position % 10;
    var fileText := if 1 <= datei <= 8 then [FILES[datei - 1]] else "";
    fileText + IntString(reihe - 1)
  }

  /** notationZuPosition: -1 for a short text, an unknown file or a rank
      that parseInt cannot read; characters after the second are ignored. */
  function JsNotationToPosition(notation: string): (r: int)
    ensures r == -1 <==> |notation| < 2 || FileNumber(notation[0]).None? || !IsDigit(notation[1])
    ensures r != -1 ==>
      r == (DigitValue(notation[1]) + 1) * 10 + FileNumber(notation[0]).value &&
      Some(r) == NotationToPosition(notation[..2])
  {
    if |notation| < 2 then -1
    else
      var datei := FileNumber(notation[0]);
      if datei.None? || !IsDigit(notation[1]) then -1
      else (DigitValue(notation[1]) + 1) * 10 + datei.value
  }

  lemma JsNotationRoundTrip(p: int)
    requires IsValidPosition(p)
    ensures JsNotationToPosition(JsPositionToNotation(p)) == p
  {
    NotationRoundTrip(p);
    var s := JsPositionToNotation(p);
    assert s[..2] == s;
  }

  /** zuBrettPosition: UI row 0 is rank 8, UI column 0 is file a. */
  function BoardPosition(reihe: int, linie: int): (p: int)
    ensures p == (9 - reihe) * 10 + linie + 1
    ensures 0 <= reihe < 8 && 0 <= linie < 8 ==> IsValidPosition(p)
  {
    var brettReihe := 8 - reihe;
    var brettLinie := linie + 1;
    (brettReihe + 1) * 10 + brettLinie
  }

  /** zuBrettPosition maps the 8x8 UI grid one-to-one onto the playable
      squares. */
  lemma BoardPositionBijective(p: int, r1: int, l1: int, r2: int, l2: int)
    requires 0 <= r1 < 8 && 0 <= l1 < 8 && 0 <= r2 < 8 && 0 <= l2 < 8
    ensures BoardPosition(r1, l1) == BoardPosition(r2, l2) ==> r1 == r2 && l1 == l2
    ensures IsValidPosition(p) ==>
      0 <= 9 - Row(p) < 8 && 0 <= Col(p) - 1 < 8 && BoardPosition(9 - Row(p), Col(p) - 1) == p
  {
  }

  /** parseFigurCode: 'w' means white and anything else black; the kind
      letters are K, D, T, L, S and b, and anything else reads as a pawn.
      Missing characters read as undefined, that is black and pawn. */
  function ParseFigurCode(figurCode: string): (r: (int, int))
    ensures r.0 == (if |figurCode| >= 1 && figurCode[0] == 'w' then WHITE else BLACK)
    ensures IsColour(r.0) && IsKind(r.1)
    ensures (|figurCode| < 2 || figurCode[1] !in "KDTLSb") ==> r.1 == PAWN
  {
    var farbe := if |figurCode| >= 1 && figurCode[0] == 'w' then WHITE else BLACK;
    var art :=
      if |figurCode| < 2 then PAWN
      else if figurCode[1] == 'K' then KING
      else if figurCode[1] == 'D' then QUEEN
      else if figurCode[1] == 'T' then ROOK
      else if figurCode[1] == 'L' then BISHOP
      else if figurCode[1] == 'S' then KNIGHT
      else PAWN;
    (farbe, art)
  }

  /** getFigurCode: 'w' or 's' by sign, then b, T, L, S, D, K, or '?'. */
  function FigurCode(figurWert: int): (s: string)
    ensures |s| == 2 && (s[0] == 'w' <==> figurWert > 0)
  {
    var farbe := if figurWert > 0 then 'w' else 's';
    var art := if figurWert < 0 then -figurWert else figurWert;
    var letter :=
      if art == PAWN then 'b' else if art == ROOK then 'T' else if art == BISHOP then 'L'
      else if art == KNIGHT then 'S' else if art == QUEEN then 'D' else if art == KING then 'K'
      else '?';
    [farbe, letter]
  }

  /** getFigurCode gives back each of the twelve codes parseFigurCode reads. */
  lemma FigurCodeRoundTrip(figurCode: string)
    requires |figurCode| == 2 && figurCode[0] in "ws" && figurCode[1] in "KDTLSb"
    ensures var (farbe, art) := ParseFigurCode(figurCode); FigurCode(art * farbe) == figurCode
  {
  }
}
