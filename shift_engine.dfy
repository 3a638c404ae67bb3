/** The shift engine of game/board.go as functions on values.

    One call of Board.Shift is BoardSide passes over the 16 cells in
    row-major order. The single-cell step (one iteration of the inner
    loop) is the unit of this model: Scan is a prefix of one pass, Passes
    a number of whole passes, and ShiftGrid the four passes followed by
    clearing the freeze map. */
module ShiftEngine {
  import opened Geometry
  import opened Tiles

  /** The mutable state of one shift: the tile map, the freeze map and the
      somethingHappened flag. */
  datatype Grid = Grid(tiles: seq<int>, frozen: seq<bool>, moved: bool)

  predicate WellFormed(g: Grid) {
    |g.tiles| == Cells && |g.frozen| == Cells
  }

  /** The cleared freeze map. */
  function NoneFrozen(): (f: seq<bool>)
    ensures |f| == Cells && forall k :: 0 <= k < Cells ==> !f[k]
  {
    seq(Cells, _ => false)
  }

  /** What one step does to its cell. */
  datatype Action = Skip | Slide(to: int) | Merge(into: int)

  /** The neighbour of cell i one step along v, when the bounds test
      (0 <= coordinate < BoardSide on both axes) lets it through. */
  function Neighbour(i: int, v: Vector): (n: Option<int>)
    requires 0 <= i < Cells
    ensures n.Some? <==> 0 <= i % BoardSide + v.dx < BoardSide && 0 <= i / BoardSide + v.dy < BoardSide
    ensures n.Some? ==> 0 <= n.value < Cells && n.value == i + v.dy * BoardSide + v.dx
  {
    var (x, y) := IToPosition(i);
    var (nx, ny) := (v.dx + x, v.dy + y);
    if nx < 0 || nx >= BoardSide || ny < 0 || ny >= BoardSide then None
    else Some(PositionToI(nx, ny))
  }

  /** The branch the loop body takes for cell i: skip an empty cell or one
      whose neighbour is off the board; slide into an empty neighbour;
      merge into an equal neighbour when the SOURCE cell is not frozen
      (the neighbour's freeze bit is not consulted). */
  function ActionAt(g: Grid, v: Vector, i: int): (a: Action)
    requires WellFormed(g) && 0 <= i < Cells
    ensures a.Slide? ==> Neighbour(i, v) == Some(a.to) && g.tiles[i] != 0 && g.tiles[a.to] == 0 && a.to != i
    ensures a.Merge? ==> Neighbour(i, v) == Some(a.into) && g.tiles[i] != 0 && g.tiles[a.into] == g.tiles[i] && !g.frozen[i]
    ensures g.tiles[i] == 0 ==> a == Skip
    ensures g.tiles[i] != 0 && Neighbour(i, v).Some? && g.tiles[Neighbour(i, v).value] == 0 ==>
      a == Slide(Neighbour(i, v).value)
    ensures g.tiles[i] != 0 && Neighbour(i, v).Some? && g.tiles[Neighbour(i, v).value] == g.tiles[i] && !g.frozen[i] ==>
      a == Merge(Neighbour(i, v).value)
  {
    if g.tiles[i] == 0 then Skip
    else match Neighbour(i, v)
      case None => Skip
      case Some(n) =>
        if g.tiles[n] == 0 then Slide(n)
        else if g.tiles[i] == g.tiles[n] && !g.frozen[i] then Merge(n)
        else Skip
  }

  /** The writes of one branch, in the order the Go code performs them:
      the neighbour first, then the source cell. */
  function Apply(g: Grid, i: int, a: Action): (r: Grid)
    requires WellFormed(g) && 0 <= i < Cells
    requires a.Slide? ==> 0 <= a.to < Cells
    requires a.Merge? ==> 0 <= a.into < Cells
    ensures WellFormed(r)
    ensures forall k :: 0 <= k < Cells && k != i && !(a.Slide? && k == a.to) && !(a.Merge? && k == a.into) ==>
      r.tiles[k] == g.tiles[k] && r.frozen[k] == g.frozen[k]
    ensures a == Skip ==> r == g
    ensures a.Slide? && a.to != i ==>
      r.tiles[a.to] == g.tiles[i] && r.tiles[i] == 0 && r.frozen == g.frozen && r.moved
    ensures a.Merge? && a.into != i ==>
      r.tiles[a.into] == 2 * g.tiles[i] && r.tiles[i] == 0 && r.frozen[i] && r.frozen[a.into] && r.moved
    ensures a.Merge? && a.into == i ==> r.tiles[i] == 0 && r.frozen[i] && r.moved
  {
    match a
    case Skip => g
    case Slide(n) => Grid(g.tiles[n := g.tiles[i]][i := 0], g.frozen, true)
    case Merge(n) => Grid(g.tiles[n := 2 * g.tiles[i]][i := 0], g.frozen[i := true][n := true], true)
  }

  /** One iteration of the inner loop, for cell i. Either nothing changes
      or cell i is left empty, and somethingHappened is set exactly when
      the tile map changes. */
  function Step(g: Grid, v: Vector, i: int): (r: Grid)
    requires WellFormed(g) && 0 <= i < Cells
    ensures WellFormed(r)
    ensures r == g || r.tiles[i] == 0
    ensures r.moved == (g.moved || r.tiles != g.tiles)
  {
    var r := Apply(g, i, ActionAt(g, v, i));
    assert r != g ==> r.tiles[i] != g.tiles[i];
    r
  }

  /** The state after the inner loop has visited cells 0 .. i-1 of one
      pass. */
  function Scan(g: Grid, v: Vector, i: int): (r: Grid)
    requires WellFormed(g) && 0 <= i <= Cells
    ensures WellFormed(r)
    ensures g.moved ==> r.moved
  {
    if i == 0 then g else Step(Scan(g, v, i - 1), v, i - 1)
  }

  /** One pass of the outer loop: every cell, in row-major order. */
  function Pass(g: Grid, v: Vector): (r: Grid)
    requires WellFormed(g)
    ensures WellFormed(r)
    ensures g.moved ==> r.moved
  {
    Scan(g, v, Cells)
  }

  /** The state after p passes. */
  function Passes(g: Grid, v: Vector, p: nat): (r: Grid)
    requires WellFormed(g)
    ensures WellFormed(r)
    ensures g.moved ==> r.moved
  {
    if p == 0 then g else Pass(Passes(g, v, p - 1), v)
  }

  /** Board.Shift on a tile map and freeze map: BoardSide passes, then the
      freeze map cleared. moved is the value Shift returns. */
  function ShiftGrid(tiles: seq<int>, frozen: seq<bool>, v: Vector): (r: Grid)
    requires |tiles| == Cells && |frozen| == Cells
    ensures WellFormed(r) && r.frozen == NoneFrozen()
  {
    var g := Passes(Grid(tiles, frozen, false), v, BoardSide);
    Grid(g.tiles, NoneFrozen(), g.moved)
  }

  /** The shift of a tile map that starts unfrozen, as every Board does. */
  function Shifted(tiles: seq<int>, d: Direction): (r: Grid)
    requires |tiles| == Cells
    ensures WellFormed(r) && r.frozen == NoneFrozen()
  {
    ShiftGrid(tiles, NoneFrozen(), DirVector(d))
  }
}
