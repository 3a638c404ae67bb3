/** The older engine of the root board.go (package main). It runs the same
    four passes over the sixteen cells as game/board.go, with two
    differences: the bounds test rejects a coordinate only when it is below
    0 or ABOVE BoardSide, so a coordinate equal to BoardSide gets through;
    and a merge freezes only its source cell. An index that leaves the
    16-cell array is a Go runtime panic, modelled here as an outcome. */
module LegacyBoard {
  import opened Geometry
  import opened Tiles
  import opened ShiftEngine

  /** How a (partial) shift ends: still running or returned normally, or
      panicked on raw[index]. In both cases g is the board at that point
      (a panic leaves the writes made so far in place). */
  datatype Outcome = Ok(g: Grid) | Panicked(index: int, g: Grid)

  /** The neighbour index the legacy bounds test lets through. A
      coordinate equal to BoardSide passes, so the index may lie in the
      next row or beyond the array. */
  function LNeighbour(i: int, v: Vector): (n: Option<int>)
    requires 0 <= i < Cells
    ensures n.Some? <==> 0 <= i % BoardSide + v.dx <= BoardSide && 0 <= i / BoardSide + v.dy <= BoardSide
    ensures n.Some? ==> 0 <= n.value && n.value == i + v.dy * BoardSide + v.dx
  {
    var (x, y) := IToPosition(i);
    var (nx, ny) := (v.dx + x, v.dy + y);
    if nx < 0 || nx > BoardSide || ny < 0 || ny > BoardSide then None
    else Some(ny * BoardSide + nx)
  }

  /** One iteration of the inner loop for cell i. Reading the neighbour
      outside the array panics before anything is written; a merge
      freezes the source cell only. */
  function LStep(g: Grid, v: Vector, i: int): (r: Outcome)
    requires WellFormed(g) && 0 <= i < Cells
    ensures WellFormed(r.g)
    ensures r.Panicked? ==> r.g == g && r.index >= Cells
    ensures r.Panicked? ==> g.tiles[i] != 0 && LNeighbour(i, v) == Some(r.index)
    ensures g.tiles[i] != 0 && LNeighbour(i, v).Some? && LNeighbour(i, v).value >= Cells ==>
      r == Panicked(LNeighbour(i, v).value, g)
  {
    if g.tiles[i] == 0 then Ok(g)
    else match LNeighbour(i, v)
      case None => Ok(g)
      case Some(n) =>
        if n >= Cells then Panicked(n, g)
        else if g.tiles[n] == 0 then Ok(Grid(g.tiles[n := g.tiles[i]][i := 0], g.frozen, true))
        else if g.tiles[i] == g.tiles[n] && !g.frozen[i] then
          Ok(Grid(g.tiles[n := 2 * g.tiles[i]][i := 0], g.frozen[i := true], true))
        else Ok(g)
  }

  /** The outcome once the inner loop has visited cells 0 .. i-1; a panic
      ends the scan. */
  function LScan(g: Grid, v: Vector, i: int): (r: Outcome)
    requires WellFormed(g) && 0 <= i <= Cells
    ensures WellFormed(r.g)
    ensures r.Panicked? ==> r.index >= Cells
  {
    if i == 0 then Ok(g)
    else match LScan(g, v, i - 1)
      case Panicked(n, h) => Panicked(n, h)
      case Ok(h) => LStep(h, v, i - 1)
  }

  /** The outcome after p passes; a panic ends the shift. */
  function LPasses(g: Grid, v: Vector, p: nat): (r: Outcome)
    requires WellFormed(g)
    ensures WellFormed(r.g)
    ensures r.Panicked? ==> r.index >= Cells
  {
    if p == 0 then Ok(g)
    else match LPasses(g, v, p - 1)
      case Panicked(n, h) => Panicked(n, h)
      case Ok(h) => LScan(h, v, Cells)
  }

  /** Board.Shift of board.go: BoardSide passes, then ClearFreeze when no
      panic cut the shift short. */
  function LShiftGrid(raw: seq<int>, freeze: seq<bool>, v: Vector): (r: Outcome)
    requires |raw| == Cells && |freeze| == Cells
    ensures WellFormed(r.g)
    ensures r.Ok? ==> r.g.frozen == NoneFrozen()
    ensures r.Panicked? ==> r.index >= Cells
  {
    match LPasses(Grid(raw, freeze, false), v, BoardSide)
    case Panicked(n, h) => Panicked(n, h)
    case Ok(h) => Ok(Grid(h.tiles, NoneFrozen(), h.moved))
  }

  /** What a call of the Go method produces: a result, or a panic on
      raw[index]. */
  datatype ShiftResult = Returned(somethingHappened: bool) | Panic(index: int)

  class Board {
    const raw: array<int>
    const freeze: array<bool>

    ghost predicate Valid() {
      raw.Length == Cells && freeze.Length == Cells
    }

    /** The zero value Board{} that main.go starts from. */
    constructor ()
      ensures Valid() && fresh(raw) && fresh(freeze)
      ensures raw[..] == seq(Cells, _ => 0) && freeze[..] == NoneFrozen()
    {
      raw := new int[Cells](_ => 0);
      freeze := new bool[Cells](_ => false);
    }

    /** The tile at (x, y), index y * BoardSide + x. */
    function Get(x: int, y: int): (v: int)
      requires Valid() && 0 <= y * BoardSide + x < Cells
      reads raw
      ensures v == raw[PositionToI(x, y)]
    {
      raw[y * BoardSide + x]
    }

    method Set(x: int, y: int, v: int)
      requires Valid() && 0 <= y * BoardSide + x < Cells
      modifies raw
      ensures raw[..] == old(raw[..])[PositionToI(x, y) := v]
    {
      raw[y * BoardSide + x] := v;
    }

    method Freeze(x: int, y: int)
      requires Valid() && 0 <= y * BoardSide + x < Cells
      modifies freeze
      ensures freeze[..] == old(freeze[..])[PositionToI(x, y) := true]
    {
      freeze[y * BoardSide + x] := true;
    }

    function IsFrozen(x: int, y: int): (b: bool)
      requires Valid() && 0 <= y * BoardSide + x < Cells
      reads freeze
      ensures b == freeze[PositionToI(x, y)]
    {
      freeze[y * BoardSide + x]
    }

    method ClearFreeze()
      requires Valid()
      modifies freeze
      ensures freeze[..] == NoneFrozen()
    {
      forall k | 0 <= k < Cells {
        freeze[k] := false;
      }
    }

    /** Shift: the loops of board.go. The result and the new arrays are
        those of LShiftGrid, including the board left behind by a panic. */
    method Shift(dir: Direction) returns (r: ShiftResult)
      requires Valid()
      modifies raw, freeze
      ensures LShiftGrid(old(raw[..]), old(freeze[..]), DirVector(dir)).Ok? ==>
        r == Returned(LShiftGrid(old(raw[..]), old(freeze[..]), DirVector(dir)).g.moved)
      ensures LShiftGrid(old(raw[..]), old(freeze[..]), DirVector(dir)).Panicked? ==>
        r == Panic(LShiftGrid(old(raw[..]), old(freeze[..]), DirVector(dir)).index)
      ensures raw[..] == LShiftGrid(old(raw[..]), old(freeze[..]), DirVector(dir)).g.tiles
      ensures freeze[..] == LShiftGrid(old(raw[..]), old(freeze[..]), DirVector(dir)).g.frozen
    {
      var v := DirVector(dir);
      ghost var g0 := Grid(raw[..], freeze[..], false);
      var somethingHappened := false;
      for j := 0 to BoardSide
        invariant LPasses(g0, v, j) == Ok(Grid(raw[..], freeze[..], somethingHappened))
      {
        ghost var before := Grid(raw[..], freeze[..], somethingHappened);
        for i := 0 to Cells
          invariant LScan(before, v, i) == Ok(Grid(raw[..], freeze[..], somethingHappened))
        {
          var panic;
          ScanOkStep(before, v, i, Grid(raw[..], freeze[..], somethingHappened));
          somethingHappened, panic := ShiftCell(v, i, somethingHappened);
          if panic.Some? {
            PanicEndsShift(g0, v, j, before, i);
            return Panic(panic.value);
          }
        }
      }
      ClearFreeze();
      return Returned(somethingHappened);
    }

    /** One iteration of the inner loop; panic is the index Get would
        have read outside the array. */
    method ShiftCell(v: Vector, i: int, movedBefore: bool) returns (moved: bool, panic: Option<int>)
      requires Valid() && 0 <= i < Cells
      modifies raw, freeze
      ensures LStep(Grid(old(raw[..]), old(freeze[..]), movedBefore), v, i)
           == (if panic.Some? then Panicked(panic.value, Grid(raw[..], freeze[..], moved))
               else Ok(Grid(raw[..], freeze[..], moved)))
    {
      moved, panic := movedBefore, None;
      if raw[i] == 0 {
        return;
      }
      var (x, y) := IToPosition(i);
      var cur := Get(x, y);
      var neighX, neighY := v.dx + x, v.dy + y;
      if neighX < 0 || neighX > BoardSide || neighY < 0 || neighY > BoardSide {
        return;
      }
      if neighY * BoardSide + neighX >= Cells {
        // Go's bounds check on raw inside Get
        return moved, Some(neighY * BoardSide + neighX);
      }
      var neigh := Get(neighX, neighY);
      if neigh == 0 {
        Set(neighX, neighY, cur);
        Set(x, y, 0);
        moved := true;
      } else if cur == neigh && !IsFrozen(x, y) {
        Set(neighX, neighY, 2 * cur);
        Set(x, y, 0);
        Freeze(x, y);
        moved := true;
      }
    }
  }

  // ---------------------------------------------------------------------
  // A panic ends the shift

  lemma {:induction false} ScanPanicStays(g: Grid, v: Vector, i: int, k: int)
    requires WellFormed(g) && 0 <= i <= k <= Cells && LScan(g, v, i).Panicked?
    ensures LScan(g, v, k) == LScan(g, v, i)
    decreases k
  {
    if k > i {
      ScanPanicStays(g, v, i, k - 1);
    }
  }

  lemma {:induction false} PassesPanicStays(g: Grid, v: Vector, p: nat, q: nat)
    requires WellFormed(g) && p <= q && LPasses(g, v, p).Panicked?
    ensures LPasses(g, v, q) == LPasses(g, v, p)
    decreases q
  {
    if q > p {
      PassesPanicStays(g, v, p, q - 1);
    }
  }

  /** One more cell of a scan that has not panicked is one LStep. */
  lemma ScanOkStep(g: Grid, v: Vector, i: int, h: Grid)
    requires WellFormed(g) && 0 <= i < Cells && LScan(g, v, i) == Ok(h)
    ensures LScan(g, v, i + 1) == LStep(h, v, i)
  {
  }

  /** A panic in pass j is the outcome of the whole shift. */
  lemma PanicEndsShift(g0: Grid, v: Vector, j: int, before: Grid, i: int)
    requires WellFormed(g0) && !g0.moved && WellFormed(before) && 0 <= j < BoardSide && 0 <= i < Cells
    requires LPasses(g0, v, j) == Ok(before) && LScan(before, v, i + 1).Panicked?
    ensures LShiftGrid(g0.tiles, g0.frozen, v) == LScan(before, v, i + 1)
  {
    ScanPanicStays(before, v, i + 1, Cells);
    PassesPanicStays(g0, v, j + 1, BoardSide);
  }

  // ---------------------------------------------------------------------
  // Where the neighbour lies

  /** Right always steps to the next index, so (3, y) wraps to (0, y + 1)
      and (3, 3) reaches index 16; Down steps BoardSide ahead, so the
      bottom row reaches 16 .. 19; Left and Up stop at their edges. */
  lemma LegacyNeighbours(i: int)
    requires 0 <= i < Cells
    ensures LNeighbour(i, DirVector(Right)) == Some(i + 1)
    ensures LNeighbour(i, DirVector(Down)) == Some(i + BoardSide)
    ensures LNeighbour(i, DirVector(Left)) == if i % BoardSide == 0 then None else Some(i - 1)
    ensures LNeighbour(i, DirVector(Up)) == if i < BoardSide then None else Some(i - BoardSide)
  {
    DirVectorTable();
  }

  /** The row wrap of a Right move from the last column. */
  lemma RightWrapsRow(y: int)
    requires 0 <= y < BoardSide - 1
    ensures LNeighbour(PositionToI(BoardSide - 1, y), DirVector(Right)) == Some(PositionToI(0, y + 1))
  {
    LegacyNeighbours(PositionToI(BoardSide - 1, y));
  }

  // ---------------------------------------------------------------------
  // Left and Up stay in range

  lemma StepInRange(g: Grid, v: Vector, i: int)
    requires WellFormed(g) && 0 <= i < Cells && v.dx <= 0 && v.dy <= 0
    ensures LStep(g, v, i).Ok?
  {
  }

  lemma {:induction false} ScanInRange(g: Grid, v: Vector, i: int)
    requires WellFormed(g) && 0 <= i <= Cells && v.dx <= 0 && v.dy <= 0
    ensures LScan(g, v, i).Ok?
  {
    if i > 0 {
      ScanInRange(g, v, i - 1);
      StepInRange(LScan(g, v, i - 1).g, v, i - 1);
    }
  }

  lemma {:induction false} PassesInRange(g: Grid, v: Vector, p: nat)
    requires WellFormed(g) && v.dx <= 0 && v.dy <= 0
    ensures LPasses(g, v, p).Ok?
  {
    if p > 0 {
      PassesInRange(g, v, p - 1);
      ScanInRange(LPasses(g, v, p - 1).g, v, Cells);
    }
  }

  /** Every index a Left or Up shift reads or writes lies in 0 .. 15: the
      shift never panics. */
  lemma LeftUpNeverPanic(raw: seq<int>, freeze: seq<bool>, d: Direction)
    requires |raw| == Cells && |freeze| == Cells && (d == Left || d == Up)
    ensures LShiftGrid(raw, freeze, DirVector(d)).Ok?
  {
    DirVectorTable();
    PassesInRange(Grid(raw, freeze, false), DirVector(d), BoardSide);
  }

  // ---------------------------------------------------------------------
  // Right and Down panic on every non-empty board

  /** Under Right or Down a step carries a non-empty cell at or after i to
      a non-empty cell after i: the neighbour is ahead in scan order and
      is non-empty after a slide, a merge or a blocked step. */
  lemma StepCarries(g: Grid, v: Vector, i: int)
    requires WellFormed(g) && 0 <= i < Cells && (v == Vector(1, 0) || v == Vector(0, 1))
    requires exists k :: i <= k < Cells && g.tiles[k] != 0
    ensures LStep(g, v, i).Panicked? || exists k :: i + 1 <= k < Cells && LStep(g, v, i).g.tiles[k] != 0
  {
    var k :| i <= k < Cells && g.tiles[k] != 0;
    if g.tiles[i] != 0 {
      var n := i + v.dy * BoardSide + v.dx;
      assert LNeighbour(i, v) == Some(n);
      if n < Cells {
        assert LStep(g, v, i).g.tiles[n] != 0;
      }
    } else {
      assert LStep(g, v, i).g.tiles[k] != 0;
    }
  }

  lemma {:induction false} ScanCarries(g: Grid, v: Vector, i: int)
    requires WellFormed(g) && 0 <= i <= Cells && (v == Vector(1, 0) || v == Vector(0, 1))
    requires exists k :: 0 <= k < Cells && g.tiles[k] != 0
    ensures LScan(g, v, i).Panicked? || exists k :: i <= k < Cells && LScan(g, v, i).g.tiles[k] != 0
  {
    if i > 0 {
      ScanCarries(g, v, i - 1);
      if LScan(g, v, i - 1).Ok? {
        StepCarries(LScan(g, v, i - 1).g, v, i - 1);
      }
    }
  }

  lemma {:induction false} ScanEmpty(g: Grid, v: Vector, i: int)
    requires WellFormed(g) && 0 <= i <= Cells && forall k :: 0 <= k < Cells ==> g.tiles[k] == 0
    ensures LScan(g, v, i) == Ok(g)
  {
    if i > 0 {
      ScanEmpty(g, v, i - 1);
    }
  }

  lemma {:induction false} PassesEmpty(g: Grid, v: Vector, p: nat)
    requires WellFormed(g) && forall k :: 0 <= k < Cells ==> g.tiles[k] == 0
    ensures LPasses(g, v, p) == Ok(g)
  {
    if p > 0 {
      PassesEmpty(g, v, p - 1);
      ScanEmpty(g, v, Cells);
    }
  }

  /** A Right or Down shift panics exactly when the board holds a tile:
      the first pass carries a tile ahead of the scan until it reaches a
      cell whose neighbour index is 16 or more. Only the empty board
      survives. */
  lemma RightDownPanic(raw: seq<int>, freeze: seq<bool>, d: Direction)
    requires |raw| == Cells && |freeze| == Cells && (d == Right || d == Down)
    ensures LShiftGrid(raw, freeze, DirVector(d)).Panicked? <==> exists k :: 0 <= k < Cells && raw[k] != 0
  {
    DirVectorTable();
    var g := Grid(raw, freeze, false);
    var v := DirVector(d);
    if exists k :: 0 <= k < Cells && raw[k] != 0 {
      ScanCarries(g, v, Cells);
      assert LPasses(g, v, 1) == LScan(g, v, Cells);
      PassesPanicStays(g, v, 1, BoardSide);
    } else {
      PassesEmpty(g, v, BoardSide);
    }
  }

  // ---------------------------------------------------------------------
  // Sum, no-move and freeze

  lemma StepKeepsSum(g: Grid, v: Vector, i: int)
    requires WellFormed(g) && 0 <= i < Cells && IsUnit(v)
    ensures Sum(LStep(g, v, i).g.tiles) == Sum(g.tiles)
  {
    var c := g.tiles[i];
    if c != 0 && LNeighbour(i, v).Some? && LNeighbour(i, v).value < Cells {
      var n := LNeighbour(i, v).value;
      assert n != i;
      if g.tiles[n] == 0 {
        SumUpdate(g.tiles, n, c);
        SumUpdate(g.tiles[n := c], i, 0);
      } else if c == g.tiles[n] && !g.frozen[i] {
        SumUpdate(g.tiles, n, 2 * c);
        SumUpdate(g.tiles[n := 2 * c], i, 0);
      }
    }
  }

  lemma {:induction false} ScanKeepsSum(g: Grid, v: Vector, i: int)
    requires WellFormed(g) && 0 <= i <= Cells && IsUnit(v)
    ensures Sum(LScan(g, v, i).g.tiles) == Sum(g.tiles)
  {
    if i > 0 {
      ScanKeepsSum(g, v, i - 1);
      StepKeepsSum(LScan(g, v, i - 1).g, v, i - 1);
    }
  }

  lemma {:induction false} PassesKeepSum(g: Grid, v: Vector, p: nat)
    requires WellFormed(g) && IsUnit(v)
    ensures Sum(LPasses(g, v, p).g.tiles) == Sum(g.tiles)
  {
    if p > 0 {
      PassesKeepSum(g, v, p - 1);
      ScanKeepsSum(LPasses(g, v, p - 1).g, v, Cells);
    }
  }

  /** The legacy shift keeps the sum of raw, both when it returns and in
      the board a panic leaves behind. */
  lemma LegacyKeepsSum(raw: seq<int>, freeze: seq<bool>, d: Direction)
    requires |raw| == Cells && |freeze| == Cells
    ensures Sum(LShiftGrid(raw, freeze, DirVector(d)).g.tiles) == Sum(raw)
  {
    PassesKeepSum(Grid(raw, freeze, false), DirVector(d), BoardSide);
  }

  lemma {:induction false} ScanUnmoved(g: Grid, v: Vector, i: int)
    requires WellFormed(g) && 0 <= i <= Cells
    ensures !LScan(g, v, i).g.moved ==> LScan(g, v, i).g == g
  {
    if i > 0 {
      ScanUnmoved(g, v, i - 1);
    }
  }

  lemma {:induction false} PassesUnmoved(g: Grid, v: Vector, p: nat)
    requires WellFormed(g)
    ensures !LPasses(g, v, p).g.moved ==> LPasses(g, v, p).g == g
  {
    if p > 0 {
      PassesUnmoved(g, v, p - 1);
      ScanUnmoved(LPasses(g, v, p - 1).g, v, Cells);
    }
  }

  /** A completed legacy shift that returns false leaves raw as it was,
      and every completed shift ends with the freeze map cleared. */
  lemma LegacyUnmovedUnchanged(raw: seq<int>, freeze: seq<bool>, v: Vector)
    requires |raw| == Cells && |freeze| == Cells
    ensures LShiftGrid(raw, freeze, v).Ok? && !LShiftGrid(raw, freeze, v).g.moved ==>
      LShiftGrid(raw, freeze, v).g.tiles == raw
    ensures LShiftGrid(raw, freeze, v).Ok? ==> forall k :: 0 <= k < Cells ==> !LShiftGrid(raw, freeze, v).g.frozen[k]
  {
    PassesUnmoved(Grid(raw, freeze, false), v, BoardSide);
  }

  /** A legacy merge freezes its source cell and leaves the target's
      freeze bit as it was, so the merged tile may merge again. */
  lemma MergeFreezesSourceOnly(g: Grid, v: Vector, i: int)
    requires WellFormed(g) && 0 <= i < Cells && IsUnit(v)
    requires g.tiles[i] != 0 && LNeighbour(i, v).Some? && LNeighbour(i, v).value < Cells
    requires g.tiles[LNeighbour(i, v).value] == g.tiles[i] && !g.frozen[i]
    ensures LStep(g, v, i).g.frozen[i]
    ensures LStep(g, v, i).g.frozen[LNeighbour(i, v).value] == g.frozen[LNeighbour(i, v).value]
    ensures LStep(g, v, i).g.tiles[LNeighbour(i, v).value] == 2 * g.tiles[i]
  {
    assert LNeighbour(i, v).value != i;
  }

  /** The cascade this allows, on row 0 read Left as [2c, c, c, ...]: the
      step at cell 2 merges c into cell 1, and the step at cell 1 in the
      next pass merges the new 2c into cell 0 (so [4, 2, 2, 0] ends as
      [8, 0, 0, 0]). game/board.go freezes the target as well, which rules
      this out. */
  lemma MergedTileMergesAgain(g: Grid, c: int)
    requires WellFormed(g) && c != 0
    requires g.tiles[0] == 2 * c && g.tiles[1] == c && g.tiles[2] == c && !g.frozen[1] && !g.frozen[2]
    ensures LStep(g, DirVector(Left), 2).g.tiles[1] == 2 * c
    ensures LStep(LStep(g, DirVector(Left), 2).g, DirVector(Left), 1).g.tiles[0] == 4 * c
  {
    DirVectorTable();
    LegacyNeighbours(2);
    LegacyNeighbours(1);
  }

  /** Once every cell from i on is empty, the rest of the pass skips
      them all. */
  lemma {:induction false} ScanZeroTail(g: Grid, v: Vector, i: int, j: int)
    requires WellFormed(g) && 0 <= i <= j <= Cells && LScan(g, v, i).Ok?
    requires forall k :: i <= k < Cells ==> LScan(g, v, i).g.tiles[k] == 0
    ensures LScan(g, v, j) == LScan(g, v, i)
    decreases j
  {
    if j > i {
      ScanZeroTail(g, v, i, j - 1);
    }
  }

  /** The board of the top row 4 2 2 0, then after the first pass (4 4 0 0,
      cell 2 frozen) and after the second (8 0 0 0, cells 1 and 2
      frozen). */
  function RowStart(): Grid {
    Grid([4, 2, 2, 0, 0, 0, 0, 0, 0, 0, 0, 0, 0, 0, 0, 0], NoneFrozen(), false)
  }

  function RowAfterOne(): Grid {
    Grid([4, 4, 0, 0, 0, 0, 0, 0, 0, 0, 0, 0, 0, 0, 0, 0], NoneFrozen()[2 := true], true)
  }

  function RowAfterTwo(): Grid {
    Grid([8, 0, 0, 0, 0, 0, 0, 0, 0, 0, 0, 0, 0, 0, 0, 0], NoneFrozen()[2 := true][1 := true], true)
  }

  /** First pass: cells 0 and 1 stay, cell 2 merges into cell 1. */
  lemma RowPassOne()
    ensures LScan(RowStart(), DirVector(Left), Cells) == Ok(RowAfterOne())
  {
    DirVectorTable();
    LegacyNeighbours(0);
    LegacyNeighbours(1);
    LegacyNeighbours(2);
    var v, g := DirVector(Left), RowStart();
    assert LStep(g, v, 0) == Ok(g);
    assert LStep(g, v, 1) == Ok(g);
    assert LStep(g, v, 2) == Ok(RowAfterOne());
    assert LScan(g, v, 3) == Ok(RowAfterOne());
    ScanZeroTail(g, v, 3, Cells);
  }

  /** Second pass: the unfrozen 4 at cell 1 merges into cell 0. */
  lemma RowPassTwo()
    ensures LScan(RowAfterOne(), DirVector(Left), Cells) == Ok(RowAfterTwo())
  {
    DirVectorTable();
    LegacyNeighbours(0);
    LegacyNeighbours(1);
    var v, g := DirVector(Left), RowAfterOne();
    assert LStep(g, v, 0) == Ok(g);
    assert LStep(g, v, 1) == Ok(RowAfterTwo());
    assert LScan(g, v, 2) == Ok(RowAfterTwo());
    ScanZeroTail(g, v, 2, Cells);
  }

  /** Later passes: the 8 sits at the edge and nothing else is left. */
  lemma RowPassRest()
    ensures LScan(RowAfterTwo(), DirVector(Left), Cells) == Ok(RowAfterTwo())
  {
    DirVectorTable();
    LegacyNeighbours(0);
    var v, g := DirVector(Left), RowAfterTwo();
    assert LStep(g, v, 0) == Ok(g);
    assert LScan(g, v, 1) == Ok(g);
    ScanZeroTail(g, v, 1, Cells);
  }

  /** The whole legacy shift of the top row 4 2 2 0 to the Left: the 4 made
      in the first pass merges with the 4 beside it in the second, so the
      row ends as 8 0 0 0 (game/board.go gives 4 4 0 0). */
  lemma RowMergesTwiceLeft()
    ensures LShiftGrid([4, 2, 2, 0, 0, 0, 0, 0, 0, 0, 0, 0, 0, 0, 0, 0], NoneFrozen(), DirVector(Left))
         == Ok(Grid([8, 0, 0, 0, 0, 0, 0, 0, 0, 0, 0, 0, 0, 0, 0, 0], NoneFrozen(), true))
  {
    var v := DirVector(Left);
    RowPassOne();
    RowPassTwo();
    RowPassRest();
    assert LPasses(RowStart(), v, 2) == Ok(RowAfterTwo());
    assert LPasses(RowStart(), v, 4) == Ok(RowAfterTwo());
  }
}
