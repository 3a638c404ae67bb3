/** The Board of game/board.go: a tile map and a freeze map, both fixed
    arrays of 16 cells updated in place. */
module GameBoard {
  import opened Geometry
  import opened Tiles
  import opened ShiftEngine

  /** The only error game/board.go reports. */
  datatype Error = BoardFull

  /** The empty tile map. */
  function EmptyTiles(): (t: seq<int>)
    ensures |t| == Cells && forall k :: 0 <= k < Cells ==> t[k] == 0
  {
    seq(Cells, _ => 0)
  }

  /** No cell of the tile map is empty. */
  predicate Full(t: seq<int>) {
    forall k :: 0 <= k < |t| ==> t[k] != 0
  }

  /** The indices of the empty cells, in increasing order: the slice that
      PlaceRandom builds before drawing from it. */
  function EmptyCells(t: seq<int>): (cells: seq<int>)
    ensures forall m :: 0 <= m < |cells| ==> 0 <= cells[m] < |t| && t[cells[m]] == 0
    ensures forall m, n :: 0 <= m < n < |cells| ==> cells[m] < cells[n]
    ensures forall k :: 0 <= k < |t| && t[k] == 0 ==> k in cells
    ensures |cells| == 0 <==> Full(t)
  {
    if t == [] then []
    else
      var rest := EmptyCells(t[..|t| - 1]);
      assert forall k :: 0 <= k < |t| - 1 ==> t[..|t| - 1][k] == t[k];
      if t[|t| - 1] == 0 then rest + [|t| - 1] else rest
  }

  class Board {
    const tiles: array<int>
    const freezeMap: array<bool>

    ghost predicate Valid() {
      tiles.Length == Cells && freezeMap.Length == Cells
    }

    /** The zero value Board{}: every cell empty and unfrozen. */
    constructor ()
      ensures Valid() && fresh(tiles) && fresh(freezeMap)
      ensures tiles[..] == EmptyTiles() && freezeMap[..] == NoneFrozen()
    {
      tiles := new int[Cells](_ => 0);
      freezeMap := new bool[Cells](_ => false);
    }

    /** Board{tiles: t}, as the table tests build it. */
    constructor FromTiles(t: seq<int>)
      requires |t| == Cells
      ensures Valid() && fresh(tiles) && fresh(freezeMap)
      ensures tiles[..] == t && freezeMap[..] == NoneFrozen()
    {
      tiles := new int[Cells](k requires 0 <= k < Cells => t[k]);
      freezeMap := new bool[Cells](_ => false);
    }

    /** The tile at (x, y); Go panics when the index leaves the array. */
    function Get(x: int, y: int): (v: int)
      requires Valid() && 0 <= PositionToI(x, y) < Cells
      reads tiles
      ensures v == tiles[y * BoardSide + x]
    {
      tiles[PositionToI(x, y)]
    }

    method Set(x: int, y: int, v: int)
      requires Valid() && 0 <= PositionToI(x, y) < Cells
      modifies tiles
      ensures tiles[..] == old(tiles[..])[y * BoardSide + x := v]
    {
      tiles[PositionToI(x, y)] := v;
    }

    /** freeze: mark cell (x, y) as having taken part in a merge. */
    method Freeze(x: int, y: int)
      requires Valid() && 0 <= PositionToI(x, y) < Cells
      modifies freezeMap
      ensures freezeMap[..] == old(freezeMap[..])[y * BoardSide + x := true]
    {
      freezeMap[PositionToI(x, y)] := true;
    }

    function IsFrozen(x: int, y: int): (b: bool)
      requires Valid() && 0 <= PositionToI(x, y) < Cells
      reads freezeMap
      ensures b == freezeMap[y * BoardSide + x]
    {
      freezeMap[PositionToI(x, y)]
    }

    /** clearFreeze: replace the freeze map by the zero map. */
    method ClearFreeze()
      requires Valid()
      modifies freezeMap
      ensures freezeMap[..] == NoneFrozen()
    {
      forall k | 0 <= k < Cells {
        freezeMap[k] := false;
      }
    }

    /** Shift: BoardSide passes of the single-cell step over all cells in
        row-major order, then the freeze map is cleared. The result and the
        new tile map are those of the step model, ShiftGrid. */
    method Shift(dir: Direction) returns (somethingHappened: bool)
      requires Valid()
      modifies tiles, freezeMap
      ensures tiles[..] == ShiftGrid(old(tiles[..]), old(freezeMap[..]), DirVector(dir)).tiles
      ensures somethingHappened == ShiftGrid(old(tiles[..]), old(freezeMap[..]), DirVector(dir)).moved
      ensures freezeMap[..] == NoneFrozen()
    {
      var v := DirVector(dir);
      ghost var g0 := Grid(tiles[..], freezeMap[..], false);
      somethingHappened := false;
      for j := 0 to BoardSide
        invariant Grid(tiles[..], freezeMap[..], somethingHappened) == Passes(g0, v, j)
      {
        ghost var before := Grid(tiles[..], freezeMap[..], somethingHappened);
        for i := 0 to Cells
          invariant Grid(tiles[..], freezeMap[..], somethingHappened) == Scan(before, v, i)
        {
          somethingHappened := ShiftCell(v, i, somethingHappened);
        }
      }
      ClearFreeze();
    }

    /** One iteration of Shift's inner loop: cell i slides into an empty
        neighbour or merges into an equal one, as Step describes. */
    method ShiftCell(v: Vector, i: int, movedBefore: bool) returns (moved: bool)
      requires Valid() && 0 <= i < Cells
      modifies tiles, freezeMap
      ensures Grid(tiles[..], freezeMap[..], moved)
           == Step(Grid(old(tiles[..]), old(freezeMap[..]), movedBefore), v, i)
    {
      moved := movedBefore;
      if tiles[i] == 0 {
        return;
      }
      var (x, y) := IToPosition(i);
      var cur := Get(x, y);
      var neighX, neighY := v.dx + x, v.dy + y;
      if neighX < 0 || neighX >= BoardSide || neighY < 0 || neighY >= BoardSide {
        return;
      }
      var neigh := Get(neighX, neighY);
      if neigh == 0 {
        Set(neighX, neighY, cur);
        Set(x, y, 0);
        moved := true;
      } else if cur == neigh && !IsFrozen(x, y) {
        Set(neighX, neighY, 2 * cur);
        Set(x, y, 0);
        Freeze(x, y);
        Freeze(neighX, neighY);
        moved := true;
      }
    }

    /** IsFull: scans for an empty cell. */
    method IsFull() returns (full: bool)
      requires Valid()
      ensures full <==> Full(tiles[..])
    {
      for i := 0 to Cells
        invariant forall k :: 0 <= k < i ==> tiles[k] != 0
      {
        if tiles[i] == 0 {
          return false;
        }
      }
      return true;
    }

    /** PlaceRandom with its two draws as inputs: pick is rand.Int() (a
        non-negative int) and roll is rand.Intn(100). It fails on a full
        board; otherwise it writes 2, or 4 when roll > 75, into the empty
        cell that pick selects among the empty cells in index order. */
    method PlaceRandom(pick: nat, roll: int) returns (err: Option<Error>)
      requires Valid() && 0 <= roll < 100
      modifies tiles
      ensures err == None <==> !Full(old(tiles[..]))
      ensures err != None ==> err == Some(BoardFull) && tiles[..] == old(tiles[..])
      ensures err == None ==>
        var cells := EmptyCells(old(tiles[..]));
        |cells| > 0 &&
        tiles[..] == old(tiles[..])[cells[pick % |cells|] := if roll > 75 then 4 else 2]
    {
      var full := IsFull();
      if full {
        return Some(BoardFull);
      }
      var available: seq<int> := [];
      for i := 0 to Cells
        invariant available == EmptyCells(tiles[..i])
      {
        assert tiles[..i + 1][..i] == tiles[..i];
        if tiles[i] == 0 {
          available := available + [i];
        }
      }
      assert tiles[..Cells] == tiles[..];
      var i := available[pick % |available|];
      var num := 2;
      if roll > 75 {
        num := 4;
      }
      tiles[i] := num;
      return None;
    }
  }
}
