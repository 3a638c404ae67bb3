/** Line independence of the shift engine: under a horizontal vector each
    row of the board evolves on its own, under a vertical vector each
    column does. A line is the four cells of one row or column, in the
    order the row-major scan visits them; Board.Shift restricted to a line
    is the same step, slide and merge logic run on four cells. */
module Lines {
  import opened Geometry
  import opened ShiftEngine

  /** The four tiles and freeze bits of one row or column. */
  datatype Line = Line(tiles: seq<int>, frozen: seq<bool>)

  predicate LineWF(l: Line) {
    |l.tiles| == BoardSide && |l.frozen| == BoardSide
  }

  /** The branch the step for position k takes when the line moves
      towards k + s: the same tests as ActionAt, on four cells. */
  function LineActionAt(l: Line, s: int, k: int): (a: Action)
    requires LineWF(l) && 0 <= k < BoardSide
    ensures a.Slide? ==> 0 <= a.to < BoardSide
    ensures a.Merge? ==> 0 <= a.into < BoardSide
  {
    if l.tiles[k] == 0 || !(0 <= k + s < BoardSide) then Skip
    else if l.tiles[k + s] == 0 then Slide(k + s)
    else if l.tiles[k] == l.tiles[k + s] && !l.frozen[k] then Merge(k + s)
    else Skip
  }

  /** The writes of a branch on a line, in the order Apply makes them. */
  function LineApply(l: Line, k: int, a: Action): (r: Line)
    requires LineWF(l) && 0 <= k < BoardSide
    requires a.Slide? ==> 0 <= a.to < BoardSide
    requires a.Merge? ==> 0 <= a.into < BoardSide
    ensures LineWF(r)
  {
    match a
    case Skip => l
    case Slide(n) => Line(l.tiles[n := l.tiles[k]][k := 0], l.frozen)
    case Merge(n) => Line(l.tiles[n := 2 * l.tiles[k]][k := 0], l.frozen[k := true][n := true])
  }

  /** The step along a line: position k moves towards k + s. */
  function LineStep(l: Line, s: int, k: int): (r: Line)
    requires LineWF(l) && 0 <= k < BoardSide
    ensures LineWF(r)
  {
    LineApply(l, k, LineActionAt(l, s, k))
  }

  /** Positions 0 .. k-1 of one pass over the line. */
  function LineScan(l: Line, s: int, k: int): (r: Line)
    requires LineWF(l) && 0 <= k <= BoardSide
    ensures LineWF(r)
  {
    if k == 0 then l else LineStep(LineScan(l, s, k - 1), s, k - 1)
  }

  function LinePasses(l: Line, s: int, p: nat): (r: Line)
    requires LineWF(l)
    ensures LineWF(r)
  {
    if p == 0 then l else LineScan(LinePasses(l, s, p - 1), s, BoardSide)
  }

  /** The four passes of Shift over an unfrozen line of tiles. */
  function LineShift(t: seq<int>, s: int): (r: seq<int>)
    requires |t| == BoardSide
    ensures |r| == BoardSide
  {
    LinePasses(Line(t, [false, false, false, false]), s, BoardSide).tiles
  }

  /** The direction of travel along the line: +1 or -1 for a unit vector. */
  function Along(v: Vector): (d: int) {
    v.dx + v.dy
  }

  /** The cell at position k of line m: row m for a horizontal vector,
      column m for a vertical one. */
  function LineCell(v: Vector, m: int, k: int): (c: int)
    requires 0 <= m < BoardSide && 0 <= k < BoardSide
    ensures 0 <= c < Cells
  {
    if v.dy == 0 then BoardSide * m + k else BoardSide * k + m
  }

  /** The line that cell c lies on, and its position there. */
  function LineOf(v: Vector, c: int): (m: int)
    requires 0 <= c
  {
    if v.dy == 0 then c / BoardSide else c % BoardSide
  }

  function PosOf(v: Vector, c: int): (k: int)
    requires 0 <= c
  {
    if v.dy == 0 then c % BoardSide else c / BoardSide
  }

  /** Every cell is exactly one (line, position) pair. */
  lemma CellDecomposition(v: Vector, c: int, m: int, k: int)
    requires 0 <= c < Cells && 0 <= m < BoardSide && 0 <= k < BoardSide
    ensures 0 <= LineOf(v, c) < BoardSide && 0 <= PosOf(v, c) < BoardSide
    ensures LineCell(v, LineOf(v, c), PosOf(v, c)) == c
    ensures LineCell(v, m, k) == c <==> LineOf(v, c) == m && PosOf(v, c) == k
  {
  }

  /** The four entries of line m of a per-cell map. */
  function LineSeq<T>(t: seq<T>, v: Vector, m: int): (r: seq<T>)
    requires |t| == Cells && 0 <= m < BoardSide
    ensures |r| == BoardSide && forall k :: 0 <= k < BoardSide ==> r[k] == t[LineCell(v, m, k)]
  {
    seq(BoardSide, k requires 0 <= k < BoardSide => t[LineCell(v, m, k)])
  }

  /** The tiles of line m of a tile map. */
  function LineTiles(t: seq<int>, v: Vector, m: int): (r: seq<int>)
    requires |t| == Cells && 0 <= m < BoardSide
    ensures |r| == BoardSide
  {
    LineSeq(t, v, m)
  }

  /** Line m of a grid. */
  function Project(g: Grid, v: Vector, m: int): (l: Line)
    requires WellFormed(g) && 0 <= m < BoardSide
    ensures LineWF(l)
  {
    Line(LineSeq(g.tiles, v, m), LineSeq(g.frozen, v, m))
  }

  /** Writing one cell writes one position of that cell's line and no
      other line. */
  lemma LineSeqUpdate<T>(t: seq<T>, v: Vector, m: int, c: int, x: T)
    requires |t| == Cells && 0 <= m < BoardSide && 0 <= c < Cells
    ensures LineOf(v, c) == m ==> LineSeq(t[c := x], v, m) == LineSeq(t, v, m)[PosOf(v, c) := x]
    ensures LineOf(v, c) != m ==> LineSeq(t[c := x], v, m) == LineSeq(t, v, m)
  {
    forall k | 0 <= k < BoardSide
      ensures LineCell(v, m, k) == c <==> LineOf(v, c) == m && PosOf(v, c) == k
    {
      CellDecomposition(v, c, m, k);
    }
    CellDecomposition(v, c, 0, 0);
  }

  /** How many positions of line m lie below cell index i. */
  function Reached(v: Vector, m: int, i: int): (r: int)
    ensures 0 <= r <= BoardSide
  {
    if v.dy == 0 then
      (if i <= BoardSide * m then 0 else if i >= BoardSide * m + BoardSide then BoardSide else i - BoardSide * m)
    else
      (if i <= m then 0 else if i <= m + BoardSide then 1 else if i <= m + 2 * BoardSide then 2 else if i <= m + 3 * BoardSide then 3 else BoardSide)
  }

  lemma ReachedStep(v: Vector, m: int, i: int)
    requires 0 <= m < BoardSide && 0 <= i < Cells
    ensures Reached(v, m, 0) == 0 && Reached(v, m, Cells) == BoardSide
    ensures LineOf(v, i) == m ==> Reached(v, m, i) == PosOf(v, i) && Reached(v, m, i + 1) == Reached(v, m, i) + 1
    ensures LineOf(v, i) != m ==> Reached(v, m, i + 1) == Reached(v, m, i)
  {
  }

  /** The unit neighbour of a cell is the next position along its line. */
  lemma NeighbourAlongLine(v: Vector, i: int)
    requires IsUnit(v) && 0 <= i < Cells
    ensures Neighbour(i, v).Some? <==> 0 <= PosOf(v, i) + Along(v) < BoardSide
    ensures Neighbour(i, v).Some? ==>
      0 <= LineOf(v, i) < BoardSide && Neighbour(i, v).value == LineCell(v, LineOf(v, i), PosOf(v, i) + Along(v))
  {
    assert IToPosition(i) == (i % BoardSide, i / BoardSide);
  }

  /** Two writes to cells off line m leave line m alone. */
  lemma TwoWritesOtherLine<T>(t: seq<T>, v: Vector, m: int, n: int, x: T, i: int, y: T)
    requires |t| == Cells && 0 <= m < BoardSide && 0 <= n < Cells && 0 <= i < Cells
    requires LineOf(v, n) != m && LineOf(v, i) != m
    ensures LineSeq(t[n := x][i := y], v, m) == LineSeq(t, v, m)
  {
    LineSeqUpdate(t, v, m, n, x);
    LineSeqUpdate(t[n := x], v, m, i, y);
  }

  /** The writes of a branch whose cells are both off line m leave line m
      alone. */
  lemma ApplyOtherLine(g: Grid, v: Vector, i: int, a: Action, m: int)
    requires WellFormed(g) && 0 <= i < Cells && 0 <= m < BoardSide && LineOf(v, i) != m
    requires a.Slide? ==> 0 <= a.to < Cells && LineOf(v, a.to) != m
    requires a.Merge? ==> 0 <= a.into < Cells && LineOf(v, a.into) != m
    ensures Project(Apply(g, i, a), v, m) == Project(g, v, m)
  {
    match a
    case Skip =>
    case Slide(n) =>
      TwoWritesOtherLine(g.tiles, v, m, n, g.tiles[i], i, 0);
    case Merge(n) =>
      TwoWritesOtherLine(g.tiles, v, m, n, 2 * g.tiles[i], i, 0);
      TwoWritesOtherLine(g.frozen, v, m, i, true, n, true);
  }

  /** A step leaves every line other than its own alone. */
  lemma StepOtherLine(g: Grid, v: Vector, i: int, m: int)
    requires WellFormed(g) && IsUnit(v) && 0 <= i < Cells && 0 <= m < BoardSide && LineOf(v, i) != m
    ensures Project(Step(g, v, i), v, m) == Project(g, v, m)
  {
    NeighbourAlongLine(v, i);
    var a := ActionAt(g, v, i);
    if Neighbour(i, v).Some? {
      CellDecomposition(v, Neighbour(i, v).value, LineOf(v, i), PosOf(v, i) + Along(v));
    }
    ApplyOtherLine(g, v, i, a, m);
  }

  /** The position of a cell's unit neighbour on their common line. */
  function Target(a: Action, v: Vector): (t: Action)
  {
    match a
    case Skip => Skip
    case Slide(n) => Slide(if 0 <= n then PosOf(v, n) else 0)
    case Merge(n) => Merge(if 0 <= n then PosOf(v, n) else 0)
  }

  /** A cell whose neighbour lies off the board skips, and so does its
      position on its line. */
  lemma ActionAtEdge(g: Grid, v: Vector, i: int, l: Line, s: int, k: int)
    requires WellFormed(g) && 0 <= i < Cells && LineWF(l) && 0 <= k < BoardSide
    requires Neighbour(i, v).None? && !(0 <= k + s < BoardSide)
    ensures LineActionAt(l, s, k) == Target(ActionAt(g, v, i), v)
  {
  }

  /** A cell and its position take the same branch when they see the same
      values: their own tile and freeze bit, and their neighbour's tile. */
  lemma ActionAtInner(g: Grid, v: Vector, i: int, n: int, l: Line, s: int, k: int)
    requires WellFormed(g) && 0 <= i < Cells && LineWF(l) && 0 <= k < BoardSide
    requires Neighbour(i, v) == Some(n) && 0 <= k + s < BoardSide && PosOf(v, n) == k + s
    requires l.tiles[k] == g.tiles[i] && l.frozen[k] == g.frozen[i] && l.tiles[k + s] == g.tiles[n]
    ensures LineActionAt(l, s, k) == Target(ActionAt(g, v, i), v)
  {
  }

  /** A cell takes the same branch as its position on its line. */
  lemma ActionOnLine(g: Grid, v: Vector, i: int)
    requires WellFormed(g) && IsUnit(v) && 0 <= i < Cells
    ensures 0 <= LineOf(v, i) < BoardSide && 0 <= PosOf(v, i) < BoardSide
    ensures LineActionAt(Project(g, v, LineOf(v, i)), Along(v), PosOf(v, i)) == Target(ActionAt(g, v, i), v)
  {
    CellDecomposition(v, i, 0, 0);
    var m, k, s := LineOf(v, i), PosOf(v, i), Along(v);
    var l := Project(g, v, m);
    NeighbourAlongLine(v, i);
    assert l.tiles[k] == g.tiles[i] && l.frozen[k] == g.frozen[i];
    if Neighbour(i, v).Some? {
      var n := Neighbour(i, v).value;
      CellDecomposition(v, n, m, k + s);
      assert l.tiles[k + s] == g.tiles[n];
      ActionAtInner(g, v, i, n, l, s, k);
    } else {
      ActionAtEdge(g, v, i, l, s, k);
    }
  }

  /** The writes of a slide or merge between two cells of one line are the
      writes of the same branch on that line. */
  lemma ApplyOnLine(g: Grid, v: Vector, i: int, a: Action)
    requires WellFormed(g) && 0 <= i < Cells
    requires a.Slide? ==> 0 <= a.to < Cells && LineOf(v, a.to) == LineOf(v, i)
    requires a.Merge? ==> 0 <= a.into < Cells && LineOf(v, a.into) == LineOf(v, i)
    ensures 0 <= LineOf(v, i) < BoardSide && 0 <= PosOf(v, i) < BoardSide
    ensures Target(a, v).Slide? ==> 0 <= Target(a, v).to < BoardSide
    ensures Target(a, v).Merge? ==> 0 <= Target(a, v).into < BoardSide
    ensures Project(Apply(g, i, a), v, LineOf(v, i)) == LineApply(Project(g, v, LineOf(v, i)), PosOf(v, i), Target(a, v))
  {
    CellDecomposition(v, i, 0, 0);
    var m, k := LineOf(v, i), PosOf(v, i);
    match a
    case Skip =>
    case Slide(n) =>
      CellDecomposition(v, n, 0, 0);
      LineSeqUpdate(g.tiles, v, m, n, g.tiles[i]);
      LineSeqUpdate(g.tiles[n := g.tiles[i]], v, m, i, 0);
    case Merge(n) =>
      CellDecomposition(v, n, 0, 0);
      LineSeqUpdate(g.tiles, v, m, n, 2 * g.tiles[i]);
      LineSeqUpdate(g.tiles[n := 2 * g.tiles[i]], v, m, i, 0);
      LineSeqUpdate(g.frozen, v, m, i, true);
      LineSeqUpdate(g.frozen[i := true], v, m, n, true);
  }

  /** On its own line a step is LineStep at the cell's position. */
  lemma StepOwnLine(g: Grid, v: Vector, i: int)
    requires WellFormed(g) && IsUnit(v) && 0 <= i < Cells
    ensures 0 <= LineOf(v, i) < BoardSide && 0 <= PosOf(v, i) < BoardSide
    ensures Project(Step(g, v, i), v, LineOf(v, i)) == LineStep(Project(g, v, LineOf(v, i)), Along(v), PosOf(v, i))
  {
    ActionOnLine(g, v, i);
    NeighbourAlongLine(v, i);
    CellDecomposition(v, i, 0, 0);
    var a := ActionAt(g, v, i);
    if a.Slide? {
      CellDecomposition(v, a.to, LineOf(v, i), PosOf(v, i) + Along(v));
    } else if a.Merge? {
      CellDecomposition(v, a.into, LineOf(v, i), PosOf(v, i) + Along(v));
    }
    ApplyOnLine(g, v, i, a);
  }

  /** Cell i extends the scan of its own line by one position and leaves
      every other line where it was. */
  lemma ScanNext(g: Grid, v: Vector, i: int, m: int)
    requires WellFormed(g) && IsUnit(v) && 0 <= i < Cells && 0 <= m < BoardSide
    requires Project(Scan(g, v, i), v, m) == LineScan(Project(g, v, m), Along(v), Reached(v, m, i))
    ensures Project(Scan(g, v, i + 1), v, m) == LineScan(Project(g, v, m), Along(v), Reached(v, m, i + 1))
  {
    ReachedStep(v, m, i);
    if LineOf(v, i) == m {
      StepOwnLine(Scan(g, v, i), v, i);
    } else {
      StepOtherLine(Scan(g, v, i), v, i, m);
    }
  }

  lemma {:induction false} ScanProjects(g: Grid, v: Vector, i: int, m: int)
    requires WellFormed(g) && IsUnit(v) && 0 <= i <= Cells && 0 <= m < BoardSide
    ensures Project(Scan(g, v, i), v, m) == LineScan(Project(g, v, m), Along(v), Reached(v, m, i))
  {
    if i == 0 {
      ReachedStep(v, m, 0);
    } else {
      ScanProjects(g, v, i - 1, m);
      ScanNext(g, v, i - 1, m);
    }
  }

  lemma {:induction false} PassesProject(g: Grid, v: Vector, p: nat, m: int)
    requires WellFormed(g) && IsUnit(v) && 0 <= m < BoardSide
    ensures Project(Passes(g, v, p), v, m) == LinePasses(Project(g, v, m), Along(v), p)
  {
    if p > 0 {
      PassesProject(g, v, p - 1, m);
      ScanProjects(Passes(g, v, p - 1), v, Cells, m);
      ReachedStep(v, m, 0);
    }
  }

  /** Line independence: after a shift in direction d, each row (Left,
      Right) or column (Up, Down) holds exactly what the four-cell engine
      makes of that row or column alone. */
  lemma ShiftByLines(t: seq<int>, d: Direction, m: int, k: int)
    requires |t| == Cells && 0 <= m < BoardSide && 0 <= k < BoardSide
    ensures Shifted(t, d).tiles[LineCell(DirVector(d), m, k)]
         == LineShift(LineTiles(t, DirVector(d), m), Along(DirVector(d)))[k]
  {
    var v := DirVector(d);
    var g := Grid(t, NoneFrozen(), false);
    PassesProject(g, v, BoardSide, m);
    assert LineSeq(NoneFrozen(), v, m) == [false, false, false, false];
  }

  /** A whole expected board follows from its four expected lines. */
  lemma ShiftFromLines(t: seq<int>, d: Direction, v: Vector, s: int, e: seq<int>)
    requires |t| == Cells && |e| == Cells && v == DirVector(d) && s == Along(v)
    requires LineShift(LineTiles(t, v, 0), s) == LineTiles(e, v, 0)
    requires LineShift(LineTiles(t, v, 1), s) == LineTiles(e, v, 1)
    requires LineShift(LineTiles(t, v, 2), s) == LineTiles(e, v, 2)
    requires LineShift(LineTiles(t, v, 3), s) == LineTiles(e, v, 3)
    ensures Shifted(t, d).tiles == e
  {
    forall c | 0 <= c < Cells
      ensures Shifted(t, d).tiles[c] == e[c]
    {
      CellDecomposition(v, c, 0, 0);
      ShiftByLines(t, d, LineOf(v, c), PosOf(v, c));
    }
  }

  /** A board written as its four rows, top to bottom. */
  function Rows(r0: seq<int>, r1: seq<int>, r2: seq<int>, r3: seq<int>): (t: seq<int>)
    requires |r0| == BoardSide && |r1| == BoardSide && |r2| == BoardSide && |r3| == BoardSide
    ensures |t| == Cells
  {
    r0 + r1 + r2 + r3
  }

  lemma RowsCells(r0: seq<int>, r1: seq<int>, r2: seq<int>, r3: seq<int>)
    requires |r0| == BoardSide && |r1| == BoardSide && |r2| == BoardSide && |r3| == BoardSide
    ensures forall k :: 0 <= k < BoardSide ==>
      Rows(r0, r1, r2, r3)[k] == r0[k] && Rows(r0, r1, r2, r3)[4 + k] == r1[k] &&
      Rows(r0, r1, r2, r3)[8 + k] == r2[k] && Rows(r0, r1, r2, r3)[12 + k] == r3[k]
  {
  }

  /** The lines of a row-built board along a horizontal vector are its
      rows. */
  lemma RowsLines(r0: seq<int>, r1: seq<int>, r2: seq<int>, r3: seq<int>, v: Vector)
    requires |r0| == BoardSide && |r1| == BoardSide && |r2| == BoardSide && |r3| == BoardSide && v.dy == 0
    ensures LineTiles(Rows(r0, r1, r2, r3), v, 0) == r0 && LineTiles(Rows(r0, r1, r2, r3), v, 1) == r1
    ensures LineTiles(Rows(r0, r1, r2, r3), v, 2) == r2 && LineTiles(Rows(r0, r1, r2, r3), v, 3) == r3
  {
    RowsCells(r0, r1, r2, r3);
  }

  /** A board written as its four columns, left to right. */
  function Columns(c0: seq<int>, c1: seq<int>, c2: seq<int>, c3: seq<int>): (t: seq<int>)
    requires |c0| == BoardSide && |c1| == BoardSide && |c2| == BoardSide && |c3| == BoardSide
    ensures |t| == Cells
  {
    Rows([c0[0], c1[0], c2[0], c3[0]], [c0[1], c1[1], c2[1], c3[1]],
         [c0[2], c1[2], c2[2], c3[2]], [c0[3], c1[3], c2[3], c3[3]])
  }

  lemma ColumnsCells(c0: seq<int>, c1: seq<int>, c2: seq<int>, c3: seq<int>)
    requires |c0| == BoardSide && |c1| == BoardSide && |c2| == BoardSide && |c3| == BoardSide
    ensures forall k :: 0 <= k < BoardSide ==>
      Columns(c0, c1, c2, c3)[4 * k] == c0[k] && Columns(c0, c1, c2, c3)[4 * k + 1] == c1[k] &&
      Columns(c0, c1, c2, c3)[4 * k + 2] == c2[k] && Columns(c0, c1, c2, c3)[4 * k + 3] == c3[k]
  {
    RowsCells([c0[0], c1[0], c2[0], c3[0]], [c0[1], c1[1], c2[1], c3[1]],
              [c0[2], c1[2], c2[2], c3[2]], [c0[3], c1[3], c2[3], c3[3]]);
  }

  /** The lines of a column-built board along a vertical vector are its
      columns. */
  lemma ColumnsLines(c0: seq<int>, c1: seq<int>, c2: seq<int>, c3: seq<int>, v: Vector)
    requires |c0| == BoardSide && |c1| == BoardSide && |c2| == BoardSide && |c3| == BoardSide && v.dy != 0
    ensures LineTiles(Columns(c0, c1, c2, c3), v, 0) == c0 && LineTiles(Columns(c0, c1, c2, c3), v, 1) == c1
    ensures LineTiles(Columns(c0, c1, c2, c3), v, 2) == c2 && LineTiles(Columns(c0, c1, c2, c3), v, 3) == c3
  {
    ColumnsCells(c0, c1, c2, c3);
  }

  /** A Left or Right shift of a board maps each row on its own; s is the
      direction of travel along the rows. */
  lemma ShiftRows(d: Direction, s: int, r0: seq<int>, r1: seq<int>, r2: seq<int>, r3: seq<int>,
                  e0: seq<int>, e1: seq<int>, e2: seq<int>, e3: seq<int>)
    requires (d == Left && s == -1) || (d == Right && s == 1)
    requires |r0| == BoardSide && |r1| == BoardSide && |r2| == BoardSide && |r3| == BoardSide
    requires LineShift(r0, s) == e0 && LineShift(r1, s) == e1 && LineShift(r2, s) == e2 && LineShift(r3, s) == e3
    ensures Shifted(Rows(r0, r1, r2, r3), d).tiles == Rows(e0, e1, e2, e3)
  {
    var v := DirVector(d);
    DirVectorTable();
    assert v.dy == 0 && Along(v) == s;
    RowsLines(r0, r1, r2, r3, v);
    RowsLines(e0, e1, e2, e3, v);
    ShiftFromLines(Rows(r0, r1, r2, r3), d, v, s, Rows(e0, e1, e2, e3));
  }

  /** An Up or Down shift of a board maps each column on its own; s is the
      direction of travel along the columns. */
  lemma ShiftColumns(d: Direction, s: int, c0: seq<int>, c1: seq<int>, c2: seq<int>, c3: seq<int>,
                     e0: seq<int>, e1: seq<int>, e2: seq<int>, e3: seq<int>)
    requires (d == Up && s == -1) || (d == Down && s == 1)
    requires |c0| == BoardSide && |c1| == BoardSide && |c2| == BoardSide && |c3| == BoardSide
    requires LineShift(c0, s) == e0 && LineShift(c1, s) == e1 && LineShift(c2, s) == e2 && LineShift(c3, s) == e3
    ensures Shifted(Columns(c0, c1, c2, c3), d).tiles == Columns(e0, e1, e2, e3)
  {
    var v := DirVector(d);
    DirVectorTable();
    assert v.dy != 0 && Along(v) == s;
    ColumnsLines(c0, c1, c2, c3, v);
    ColumnsLines(e0, e1, e2, e3, v);
    ShiftFromLines(Columns(c0, c1, c2, c3), d, v, s, Columns(e0, e1, e2, e3));
  }
}
