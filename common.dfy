/** Vocabulary shared by the three chessteg engines: the 10x12 mailbox board
    (120 cells, border cells hold the sentinel DUMMY), the signed piece codes
    kind * colour, and the four castling rights. */
module Common {

  // Colours: White is +1, Black is -1.
  const WHITE: int := 1
  const BLACK: int := -1

  // Cell contents that are not pieces.
  const EMPTY: int := 0
  const DUMMY: int := 100

  // Piece kinds; a board cell holds kind * colour.
  const PAWN: int := 1
  const BISHOP: int := 3
  const KNIGHT: int := 4
  const ROOK: int := 5
  const QUEEN: int := 9
  const KING: int := 99

  const BOARD_SIZE: int := 120

  datatype Option<T> = None | Some(value: T)

  /** The first index whose element satisfies `p` (JS `find`/`findIndex`,
      the Python `for ... if ...: return` loops). */
  function FindIndex<T>(s: seq<T>, p: T -> bool): (r: Option<nat>)
    ensures r.Some? ==> r.value < |s| && p(s[r.value]) && forall j :: 0 <= j < r.value ==> !p(s[j])
    ensures r.None? ==> forall j :: 0 <= j < |s| ==> !p(s[j])
  {
    FindFrom(s, p, 0)
  }

  function FindFrom<T>(s: seq<T>, p: T -> bool, k: nat): (r: Option<nat>)
    requires k <= |s|
    requires forall j :: 0 <= j < k ==> !p(s[j])
    ensures r.Some? ==> k <= r.value < |s| && p(s[r.value]) && forall j :: 0 <= j < r.value ==> !p(s[j])
    ensures r.None? ==> forall j :: 0 <= j < |s| ==> !p(s[j])
    decreases |s| - k
  {
    if k == |s| then None
    else if p(s[k]) then Some(k)
    else FindFrom(s, p, k + 1)
  }

  /** Whether one of the first `n` elements satisfies `p` (the Python
      `for ...: if ...: return True` scan). */
  predicate AnyAmong<T>(s: seq<T>, p: T -> bool, n: nat)
    requires n <= |s|
  {
    n > 0 && (AnyAmong(s, p, n - 1) || p(s[n - 1]))
  }

  lemma {:induction false} AnyAmongMeaning<T>(s: seq<T>, p: T -> bool, n: nat)
    requires n <= |s|
    ensures AnyAmong(s, p, n) <==> exists i :: 0 <= i < n && p(s[i])
  {
    if n > 0 {
      AnyAmongMeaning(s, p, n - 1);
      if p(s[n - 1]) {
        assert exists i :: 0 <= i < n && p(s[i]);
      }
    }
  }

  /** A scan that has found a match stays found as it goes on. */
  lemma {:induction false} AnyAmongFound<T>(s: seq<T>, p: T -> bool, m: nat, n: nat)
    requires m <= n <= |s| && AnyAmong(s, p, m)
    ensures AnyAmong(s, p, n)
    decreases n - m
  {
    if m < n {
      AnyAmongFound(s, p, m + 1, n);
    }
  }

  /** A roster entry: kind, colour, square and the captured flag.  The JS
      engine names the fields art, farbe, pos, geschlagen; chessteg.py
      names them type, color, pos, captured. */
  datatype Piece = Piece(kind: int, colour: int, pos: int, captured: bool)

  function Abs(x: int): (r: int)
    ensures r >= 0 && (r == x || r == -x)
  {
    if x < 0 then -x else x
  }

  predicate IsKind(k: int)
  {
    k == PAWN || k == BISHOP || k == KNIGHT || k == ROOK || k == QUEEN || k == KING
  }

  predicate IsColour(c: int)
  {
    c == WHITE || c == BLACK
  }

  /** The signed code of a piece is never EMPTY and never the sentinel. */
  lemma PieceCodeIsNotSpecial(kind: int, colour: int)
    requires IsKind(kind) && IsColour(colour)
    ensures kind * colour != EMPTY && kind * colour != DUMMY
    ensures (kind * colour > 0) == (colour == WHITE)
  {
  }

  /** Row and column of a mailbox index.  The sources write `p // 10`,
      `Math.floor(p / 10)` and `p % 10`; with the positive divisor 10,
      Dafny's Euclidean `/` and `%` agree with floor division for every
      integer, so these are exact models. */
  function Row(p: int): int { p / 10 }
  function Col(p: int): int { p % 10 }

  /** is_valid_position: inside 21..98 and not on the left or right border. */
  predicate IsValidPosition(p: int)
  {
    20 < p < 100 && 1 <= p % 10 <= 8
  }

  lemma ValidPositionCharacterised(p: int)
    ensures IsValidPosition(p) <==> 21 <= p <= 98 && 1 <= Col(p) <= 8
    ensures IsValidPosition(p) <==> 2 <= Row(p) <= 9 && 1 <= Col(p) <= 8
    ensures IsValidPosition(p) ==> p == 10 * Row(p) + Col(p)
  {
  }

  /** The i-th playable square, 0 <= i < 64, row by row from a1 = 21. */
  function Square(i: int): (p: int)
    requires 0 <= i < 64
    ensures IsValidPosition(p)
    ensures Row(p) == 2 + i / 8 && Col(p) == 1 + i % 8
  {
    10 * (2 + i / 8) + 1 + i % 8
  }

  /** The inverse of Square on playable squares. */
  function SquareIndex(p: int): (i: int)
    requires IsValidPosition(p)
    ensures 0 <= i < 64 && Square(i) == p
  {
    8 * (Row(p) - 2) + Col(p) - 1
  }

  lemma SquareIncreasing(i: int, j: int)
    requires 0 <= i < j < 64
    ensures Square(i) < Square(j)
  {
  }

  ghost function SquaresBelow(n: int): set<int>
    requires 0 <= n <= 64
  {
    set i | 0 <= i < n :: Square(i)
  }

  lemma {:induction false} SquaresBelowCount(n: int)
    requires 0 <= n <= 64
    ensures |SquaresBelow(n)| == n
  {
    if n > 0 {
      SquaresBelowCount(n - 1);
      assert SquaresBelow(n) == SquaresBelow(n - 1) + {Square(n - 1)};
      forall i | 0 <= i < n - 1
        ensures Square(i) != Square(n - 1)
      {
        SquareIncreasing(i, n - 1);
      }
      assert Square(n - 1) !in SquaresBelow(n - 1);
    }
  }

  /** is_valid_position holds for exactly 64 of the 120 cells. */
  lemma ExactlySixtyFourSquares()
    ensures |set p | 0 <= p < BOARD_SIZE && IsValidPosition(p)| == 64
  {
    var valid := set p | 0 <= p < BOARD_SIZE && IsValidPosition(p);
    forall p | p in valid ensures p in SquaresBelow(64) {
      var i := SquareIndex(p);
      assert Square(i) == p;
    }
    assert valid == SquaresBelow(64);
    SquaresBelowCount(64);
  }

  /** Offsets of the king (and of every sliding direction). */
  const KING_OFFSETS: seq<int> := [1, -1, 10, -10, 9, 11, -9, -11]
  /** Offsets of the knight, in the order of the JS and monolithic engines. */
  const KNIGHT_OFFSETS: seq<int> := [8, 12, 19, 21, -8, -12, -19, -21]

  /** Any step of at most 21 cells from a playable square stays inside the
      120-cell array; a king or sliding step even stays off the outer rows. */
  lemma StepInside(p: int, d: int)
    requires IsValidPosition(p) && -21 <= d <= 21
    ensures 0 <= p + d < BOARD_SIZE
    ensures -11 <= d <= 11 ==> 10 <= p + d < 110
  {
  }

  /** A board whose every non-playable cell holds the sentinel.  A walk that
      starts on a playable square and steps by a king offset can therefore
      only leave the playable area onto a DUMMY cell. */
  predicate Bordered(b: seq<int>)
  {
    |b| == BOARD_SIZE &&
    forall p :: 0 <= p < BOARD_SIZE && !IsValidPosition(p) ==> b[p] == DUMMY
  }

  /** The cell layout built by initialisiereBrett (chessteg.js) and by
      initialize_board (chessteg.py): DUMMY on the border, EMPTY inside. */
  predicate IsEmptyMailbox(b: seq<int>)
  {
    |b| == BOARD_SIZE &&
    forall p :: 0 <= p < BOARD_SIZE ==> b[p] == if IsValidPosition(p) then EMPTY else DUMMY
  }

  lemma EmptyMailboxIsBordered(b: seq<int>)
    requires IsEmptyMailbox(b)
    ensures Bordered(b)
    ensures forall p :: 0 <= p < BOARD_SIZE ==> (b[p] == DUMMY <==> !IsValidPosition(p))
  {
  }

  /** Fills a board with DUMMY and then clears rows 2..9, columns 1..8. */
  method InitialiseMailbox() returns (b: seq<int>)
    ensures IsEmptyMailbox(b)
  {
    var a := new int[BOARD_SIZE](_ => DUMMY);
    var r := 2;
    while r <= 9
      invariant 2 <= r <= 10
      invariant forall p :: 0 <= p < BOARD_SIZE ==>
        a[p] == if IsValidPosition(p) && Row(p) < r then EMPTY else DUMMY
    {
      var l := 1;
      while l <= 8
        invariant 1 <= l <= 9
        invariant forall p :: 0 <= p < BOARD_SIZE ==>
          a[p] == if IsValidPosition(p) && (Row(p) < r || (Row(p) == r && Col(p) < l)) then EMPTY else DUMMY
      {
        a[r * 10 + l] := EMPTY;
        l := l + 1;
      }
      r := r + 1;
    }
    b := a[..];
  }

  /** The castling rights (white/black, king side "kurz" / queen side "lang"). */
  datatype Rights = Rights(whiteKingside: bool, whiteQueenside: bool,
                           blackKingside: bool, blackQueenside: bool)

  const ALL_RIGHTS: Rights := Rights(true, true, true, true)
  const NO_RIGHTS: Rights := Rights(false, false, false, false)

  /** Every right held in `after` was already held in `before`. */
  predicate RightsWithin(after: Rights, before: Rights)
  {
    (after.whiteKingside ==> before.whiteKingside) &&
    (after.whiteQueenside ==> before.whiteQueenside) &&
    (after.blackKingside ==> before.blackKingside) &&
    (after.blackQueenside ==> before.blackQueenside)
  }

  lemma RightsWithinTransitive(a: Rights, b: Rights, c: Rights)
    requires RightsWithin(a, b) && RightsWithin(b, c)
    ensures RightsWithin(a, c)
  {
  }

  /** istGegner (chessteg.js) and is_opponent (chessteg.py): a cell holds an
      enemy of `colour` when it is neither EMPTY nor DUMMY and its sign is
      the opposite one. */
  function IsOpponent(colour: int, value: int): (r: bool)
    ensures r ==> value != EMPTY && value != DUMMY
    ensures IsColour(colour) && value != DUMMY ==> (r <==> value * colour < 0)
  {
    if value == EMPTY || value == DUMMY then false
    else (colour > 0 && value < 0) || (colour < 0 && value > 0)
  }
}
