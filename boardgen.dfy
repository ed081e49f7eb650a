/** Target generation on a 120-cell board, as the JS engine (chessteg.js)
    and the monolithic Python engine (chessteg.py) write it: sliders walk a
    direction `while board[field] != DUMMY`, knights and kings try fixed
    offsets.  A target is a square together with the capture flag the
    generators pass to their move constructor. */
module BoardGen {
  import opened Common

  datatype Target = Target(sq: int, capture: bool)

  const ROOK_DIRECTIONS: seq<int> := [1, -1, 10, -10]
  const BISHOP_DIRECTIONS: seq<int> := [9, 11, -9, -11]

  predicate IsStep(d: int)
  {
    d == 1 || d == -1 || d == 10 || d == -10 || d == 9 || d == 11 || d == -9 || d == -11
  }

  predicate AllSteps(dirs: seq<int>)
  {
    forall i :: 0 <= i < |dirs| ==> IsStep(dirs[i])
  }

  predicate AllJumps(offsets: seq<int>)
  {
    forall i :: 0 <= i < |offsets| ==> -21 <= offsets[i] <= 21
  }

  lemma OffsetTablesAreSteps()
    ensures AllSteps(ROOK_DIRECTIONS) && AllSteps(BISHOP_DIRECTIONS) && AllSteps(KING_OFFSETS)
    ensures AllJumps(KNIGHT_OFFSETS) && AllJumps(KING_OFFSETS)
  {
  }

  /** On a bordered board a cell that is not DUMMY is playable, so the next
      step from it is still inside the array. */
  lemma NextCellInside(b: seq<int>, feld: int, d: int)
    requires Bordered(b) && 0 <= feld < BOARD_SIZE && b[feld] != DUMMY && -21 <= d <= 21
    ensures IsValidPosition(feld) && 0 <= feld + d < BOARD_SIZE
  {
    StepInside(feld, d);
  }

  /** The walk of a slider of `colour` from `feld` onward in direction `d`:
      every EMPTY cell, then the first occupied cell if it holds an enemy. */
  function Walk(b: seq<int>, colour: int, feld: int, d: int): (ts: seq<Target>)
    requires Bordered(b) && IsStep(d) && 0 <= feld < BOARD_SIZE
    decreases if d > 0 then BOARD_SIZE - feld else feld
  {
    if b[feld] == DUMMY then []
    else
      NextCellInside(b, feld, d);
      if b[feld] == EMPTY then [Target(feld, false)] + Walk(b, colour, feld + d, d)
      else if IsOpponent(colour, b[feld]) then [Target(feld, true)]
      else []
  }

  /** One step of the walk over an EMPTY cell. */
  lemma WalkOverEmpty(b: seq<int>, colour: int, feld: int, d: int)
    requires Bordered(b) && IsStep(d) && 0 <= feld < BOARD_SIZE && b[feld] == EMPTY
    ensures 0 <= feld + d < BOARD_SIZE
    ensures Walk(b, colour, feld, d) == [Target(feld, false)] + Walk(b, colour, feld + d, d)
  {
    NextCellInside(b, feld, d);
  }

  /** The walk ends on an occupied cell: with it when it holds an enemy. */
  lemma WalkEndsOnPiece(b: seq<int>, colour: int, feld: int, d: int)
    requires Bordered(b) && IsStep(d) && 0 <= feld < BOARD_SIZE && b[feld] != EMPTY && b[feld] != DUMMY
    ensures Walk(b, colour, feld, d) == if IsOpponent(colour, b[feld]) then [Target(feld, true)] else []
  {
  }

  /** Number of consecutive EMPTY cells from `feld` in direction `d`. */
  function EmptyRun(b: seq<int>, feld: int, d: int): nat
    requires Bordered(b) && IsStep(d) && 0 <= feld < BOARD_SIZE
    decreases if d > 0 then BOARD_SIZE - feld else feld
  {
    if b[feld] != EMPTY then 0
    else
      NextCellInside(b, feld, d);
      1 + EmptyRun(b, feld + d, d)
  }

  /** The cell that ends the run of EMPTY cells from `feld`: it is inside
      the array and holds DUMMY or a piece. */
  function StopCell(b: seq<int>, feld: int, d: int): (s: int)
    requires Bordered(b) && IsStep(d) && 0 <= feld < BOARD_SIZE
    ensures 0 <= s < BOARD_SIZE && b[s] != EMPTY
    decreases if d > 0 then BOARD_SIZE - feld else feld
  {
    if b[feld] != EMPTY then feld
    else
      NextCellInside(b, feld, d);
      StopCell(b, feld + d, d)
  }

  /** The k-th cell from `feld` in direction `d`, that is feld + k * d. */
  function RayCell(feld: int, d: int, k: nat): (c: int)
    ensures c == feld + k * d
    decreases k
  {
    if k == 0 then feld else RayCell(feld + d, d, k - 1)
  }

  /** A walk is the run of EMPTY cells, followed by the cell that stops it
      when, and only when, that cell holds an enemy. */
  lemma {:induction false} WalkShape(b: seq<int>, colour: int, feld: int, d: int)
    requires Bordered(b) && IsStep(d) && 0 <= feld < BOARD_SIZE
    ensures var n := EmptyRun(b, feld, d);
            var ts := Walk(b, colour, feld, d);
            |ts| == (if IsOpponent(colour, b[StopCell(b, feld, d)]) then n + 1 else n) &&
            (forall k: nat :: k < n ==>
               (0 <= RayCell(feld, d, k) < BOARD_SIZE &&
                b[RayCell(feld, d, k)] == EMPTY && ts[k] == Target(RayCell(feld, d, k), false))) &&
            (|ts| == n + 1 ==> ts[n] == Target(StopCell(b, feld, d), true))
    decreases if d > 0 then BOARD_SIZE - feld else feld
  {
    if b[feld] == EMPTY {
      NextCellInside(b, feld, d);
      WalkShape(b, colour, feld + d, d);
      var ts := Walk(b, colour, feld, d);
      forall k: nat | k < EmptyRun(b, feld, d)
        ensures 0 <= RayCell(feld, d, k) < BOARD_SIZE && b[RayCell(feld, d, k)] == EMPTY
        ensures ts[k] == Target(RayCell(feld, d, k), false)
      {
        if k > 0 {
          assert RayCell(feld, d, k) == RayCell(feld + d, d, k - 1);
        }
      }
    }
  }

  /** On the empty mailbox every walk from a playable square runs to the
      border: it stops on DUMMY after only EMPTY cells, none of them a capture. */
  lemma WalkOnEmptyBoardEndsOnDummy(b: seq<int>, colour: int, from: int, d: int)
    requires IsEmptyMailbox(b) && IsValidPosition(from) && IsStep(d)
    ensures 0 <= from + d < BOARD_SIZE
    ensures b[StopCell(b, from + d, d)] == DUMMY
    ensures forall t :: t in Walk(b, colour, from + d, d) ==> !t.capture && 0 <= t.sq < BOARD_SIZE && b[t.sq] == EMPTY
  {
    EmptyMailboxIsBordered(b);
    StepInside(from, d);
    WalkShape(b, colour, from + d, d);
    var ts := Walk(b, colour, from + d, d);
    forall t | t in ts ensures !t.capture && 0 <= t.sq < BOARD_SIZE && b[t.sq] == EMPTY {
      var k :| 0 <= k < |ts| && ts[k] == t;
      assert ts[k] == Target(RayCell(from + d, d, k), false);
    }
  }

  /** All walks from `from` along `dirs`, in the order of `dirs`. */
  function Slide(b: seq<int>, colour: int, from: int, dirs: seq<int>): seq<Target>
    requires Bordered(b) && IsValidPosition(from) && AllSteps(dirs)
    decreases |dirs|
  {
    if dirs == [] then []
    else
      var last := dirs[|dirs| - 1];
      StepInside(from, last);
      Slide(b, colour, from, dirs[..|dirs| - 1]) + Walk(b, colour, from + last, last)
  }

  /** The target (if any) of one fixed offset: the cell must not be DUMMY,
      and must be EMPTY or hold an enemy. */
  function Jump(b: seq<int>, colour: int, from: int, o: int): (ts: seq<Target>)
    requires Bordered(b) && IsValidPosition(from) && -21 <= o <= 21
    ensures |ts| <= 1
  {
    StepInside(from, o);
    var feld := from + o;
    if b[feld] == DUMMY then []
    else if b[feld] == EMPTY then [Target(feld, false)]
    else if IsOpponent(colour, b[feld]) then [Target(feld, true)]
    else []
  }

  /** The targets of all offsets, in the order of `offsets`. */
  function Jumps(b: seq<int>, colour: int, from: int, offsets: seq<int>): seq<Target>
    requires Bordered(b) && IsValidPosition(from) && AllJumps(offsets)
    decreases |offsets|
  {
    if offsets == [] then []
    else Jumps(b, colour, from, offsets[..|offsets| - 1]) + Jump(b, colour, from, offsets[|offsets| - 1])
  }

  /** Jumps over one more offset. */
  lemma JumpsSnoc(b: seq<int>, colour: int, from: int, offsets: seq<int>, i: int)
    requires Bordered(b) && IsValidPosition(from) && AllJumps(offsets) && 0 <= i < |offsets|
    ensures Jumps(b, colour, from, offsets[..i + 1]) == Jumps(b, colour, from, offsets[..i]) + Jump(b, colour, from, offsets[i])
  {
    assert offsets[..i + 1][..i] == offsets[..i];
  }

  /** What a target means: a playable square, a quiet move onto an EMPTY
      cell or a capture of an enemy. */
  predicate TargetSound(b: seq<int>, colour: int, t: Target)
    requires |b| == BOARD_SIZE
  {
    IsValidPosition(t.sq) &&
    (if t.capture then IsOpponent(colour, b[t.sq]) else b[t.sq] == EMPTY)
  }

  lemma {:induction false} JumpsSound(b: seq<int>, colour: int, from: int, offsets: seq<int>)
    requires Bordered(b) && IsValidPosition(from) && AllJumps(offsets)
    ensures forall t :: t in Jumps(b, colour, from, offsets) ==>
      TargetSound(b, colour, t) && exists i :: 0 <= i < |offsets| && t.sq == from + offsets[i]
    decreases |offsets|
  {
    if offsets != [] {
      var init := offsets[..|offsets| - 1];
      JumpsSound(b, colour, from, init);
      forall t | t in Jumps(b, colour, from, offsets)
        ensures TargetSound(b, colour, t) && exists i :: 0 <= i < |offsets| && t.sq == from + offsets[i]
      {
        if t in Jumps(b, colour, from, init) {
          var i :| 0 <= i < |init| && t.sq == from + init[i];
          assert offsets[i] == init[i];
        } else {
          assert t.sq == from + offsets[|offsets| - 1];
        }
      }
    }
  }

  lemma {:induction false} WalkSound(b: seq<int>, colour: int, feld: int, d: int)
    requires Bordered(b) && IsStep(d) && 0 <= feld < BOARD_SIZE
    ensures forall t :: t in Walk(b, colour, feld, d) ==> TargetSound(b, colour, t)
    decreases if d > 0 then BOARD_SIZE - feld else feld
  {
    if b[feld] == EMPTY {
      NextCellInside(b, feld, d);
      WalkSound(b, colour, feld + d, d);
    }
  }

  lemma {:induction false} SlideSound(b: seq<int>, colour: int, from: int, dirs: seq<int>)
    requires Bordered(b) && IsValidPosition(from) && AllSteps(dirs)
    ensures forall t :: t in Slide(b, colour, from, dirs) ==> TargetSound(b, colour, t)
    decreases |dirs|
  {
    if dirs != [] {
      var last := dirs[|dirs| - 1];
      StepInside(from, last);
      SlideSound(b, colour, from, dirs[..|dirs| - 1]);
      WalkSound(b, colour, from + last, last);
    }
  }
}
