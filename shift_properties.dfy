/** What one call of Board.Shift (game/board.go) guarantees, proved on the
    step model ShiftEngine: the sum of the tiles is kept, legal tile values
    stay legal, the number of occupied cells never grows, a shift that
    reports no movement leaves the tiles as they were (and one that
    reports movement changes them), a cell that took part in a merge is
    never again a merge source in the same shift, and a vector outside the
    four directions empties the board. */
module ShiftProperties {
  import opened Geometry
  import opened Tiles
  import opened ShiftEngine

  /** The state when pass p has visited cells 0 .. i-1. */
  function At(g: Grid, v: Vector, p: nat, i: int): (r: Grid)
    requires WellFormed(g) && 0 <= i <= Cells
    ensures WellFormed(r)
  {
    Scan(Passes(g, v, p), v, i)
  }

  // ---------------------------------------------------------------------
  // Sum of the tiles

  /** A step moves or doubles-and-clears a value, so the sum is kept when
      the neighbour is a different cell (every unit vector). */
  lemma StepKeepsSum(g: Grid, v: Vector, i: int)
    requires WellFormed(g) && 0 <= i < Cells && IsUnit(v)
    ensures Sum(Step(g, v, i).tiles) == Sum(g.tiles)
  {
    var c := g.tiles[i];
    match ActionAt(g, v, i)
    case Skip =>
    case Slide(n) =>
      SumUpdate(g.tiles, n, c);
      SumUpdate(g.tiles[n := c], i, 0);
    case Merge(n) =>
      assert n != i;
      SumUpdate(g.tiles, n, 2 * c);
      SumUpdate(g.tiles[n := 2 * c], i, 0);
  }

  lemma {:induction false} ScanKeepsSum(g: Grid, v: Vector, i: int)
    requires WellFormed(g) && 0 <= i <= Cells && IsUnit(v)
    ensures Sum(Scan(g, v, i).tiles) == Sum(g.tiles)
  {
    if i > 0 {
      ScanKeepsSum(g, v, i - 1);
      StepKeepsSum(Scan(g, v, i - 1), v, i - 1);
    }
  }

  lemma {:induction false} PassesKeepSum(g: Grid, v: Vector, p: nat)
    requires WellFormed(g) && IsUnit(v)
    ensures Sum(Passes(g, v, p).tiles) == Sum(g.tiles)
  {
    if p > 0 {
      PassesKeepSum(g, v, p - 1);
      ScanKeepsSum(Passes(g, v, p - 1), v, Cells);
    }
  }

  /** Shift keeps the sum of all tiles in every direction. */
  lemma ShiftKeepsSum(tiles: seq<int>, frozen: seq<bool>, d: Direction)
    requires |tiles| == Cells && |frozen| == Cells
    ensures Sum(ShiftGrid(tiles, frozen, DirVector(d)).tiles) == Sum(tiles)
  {
    PassesKeepSum(Grid(tiles, frozen, false), DirVector(d), BoardSide);
  }

  // ---------------------------------------------------------------------
  // Tile values

  /** A merge writes 2 * cur where cur is a legal value, so legal values
      stay legal; this holds for any vector. */
  lemma StepKeepsTileValues(g: Grid, v: Vector, i: int)
    requires WellFormed(g) && 0 <= i < Cells && AllTileValues(g.tiles)
    ensures AllTileValues(Step(g, v, i).tiles)
  {
    match ActionAt(g, v, i)
    case Skip =>
    case Slide(n) =>
    case Merge(n) =>
      DoublePow2(g.tiles[i]);
  }

  lemma {:induction false} ScanKeepsTileValues(g: Grid, v: Vector, i: int)
    requires WellFormed(g) && 0 <= i <= Cells && AllTileValues(g.tiles)
    ensures AllTileValues(Scan(g, v, i).tiles)
  {
    if i > 0 {
      ScanKeepsTileValues(g, v, i - 1);
      StepKeepsTileValues(Scan(g, v, i - 1), v, i - 1);
    }
  }

  lemma {:induction false} PassesKeepTileValues(g: Grid, v: Vector, p: nat)
    requires WellFormed(g) && AllTileValues(g.tiles)
    ensures AllTileValues(Passes(g, v, p).tiles)
  {
    if p > 0 {
      PassesKeepTileValues(g, v, p - 1);
      ScanKeepsTileValues(Passes(g, v, p - 1), v, Cells);
    }
  }

  /** If every cell is 0 or a power of two >= 2 before a shift, the same
      holds after it. */
  lemma ShiftKeepsTileValues(tiles: seq<int>, frozen: seq<bool>, v: Vector)
    requires |tiles| == Cells && |frozen| == Cells && AllTileValues(tiles)
    ensures AllTileValues(ShiftGrid(tiles, frozen, v).tiles)
  {
    PassesKeepTileValues(Grid(tiles, frozen, false), v, BoardSide);
  }

  // ---------------------------------------------------------------------
  // Occupied cells

  /** A slide keeps the number of occupied cells and a merge lowers it by
      exactly one; this holds for any vector. */
  lemma StepOccupied(g: Grid, v: Vector, i: int)
    requires WellFormed(g) && 0 <= i < Cells
    ensures Occupied(Step(g, v, i).tiles)
         == Occupied(g.tiles) - (if ActionAt(g, v, i).Merge? then 1 else 0)
  {
    var c := g.tiles[i];
    match ActionAt(g, v, i)
    case Skip =>
    case Slide(n) =>
      OccupiedUpdate(g.tiles, n, c);
      OccupiedUpdate(g.tiles[n := c], i, 0);
    case Merge(n) =>
      OccupiedUpdate(g.tiles, n, 2 * c);
      OccupiedUpdate(g.tiles[n := 2 * c], i, 0);
  }

  lemma {:induction false} ScanOccupied(g: Grid, v: Vector, i: int)
    requires WellFormed(g) && 0 <= i <= Cells
    ensures Occupied(Scan(g, v, i).tiles) <= Occupied(g.tiles)
  {
    if i > 0 {
      ScanOccupied(g, v, i - 1);
      StepOccupied(Scan(g, v, i - 1), v, i - 1);
    }
  }

  lemma {:induction false} PassesOccupied(g: Grid, v: Vector, p: nat)
    requires WellFormed(g)
    ensures Occupied(Passes(g, v, p).tiles) <= Occupied(g.tiles)
  {
    if p > 0 {
      PassesOccupied(g, v, p - 1);
      ScanOccupied(Passes(g, v, p - 1), v, Cells);
    }
  }

  /** A shift never increases the number of non-empty cells. */
  lemma ShiftOccupied(tiles: seq<int>, frozen: seq<bool>, v: Vector)
    requires |tiles| == Cells && |frozen| == Cells
    ensures Occupied(ShiftGrid(tiles, frozen, v).tiles) <= Occupied(tiles)
  {
    PassesOccupied(Grid(tiles, frozen, false), v, BoardSide);
  }

  // ---------------------------------------------------------------------
  // The returned flag

  /** somethingHappened is only ever set, and it is set by every write. */
  lemma StepMoved(g: Grid, v: Vector, i: int)
    requires WellFormed(g) && 0 <= i < Cells
    ensures Step(g, v, i).moved == (g.moved || ActionAt(g, v, i) != Skip)
    ensures ActionAt(g, v, i) == Skip ==> Step(g, v, i) == g
  {
  }

  lemma {:induction false} ScanUnmoved(g: Grid, v: Vector, i: int)
    requires WellFormed(g) && 0 <= i <= Cells
    ensures !Scan(g, v, i).moved ==> Scan(g, v, i) == g
  {
    if i > 0 {
      ScanUnmoved(g, v, i - 1);
      StepMoved(Scan(g, v, i - 1), v, i - 1);
    }
  }

  lemma {:induction false} PassesUnmoved(g: Grid, v: Vector, p: nat)
    requires WellFormed(g)
    ensures !Passes(g, v, p).moved ==> Passes(g, v, p) == g
  {
    if p > 0 {
      PassesUnmoved(g, v, p - 1);
      ScanUnmoved(Passes(g, v, p - 1), v, Cells);
    }
  }

  /** A shift that returns false leaves the tile map exactly as it was;
      this holds for any vector. */
  lemma ShiftUnmovedUnchanged(tiles: seq<int>, frozen: seq<bool>, v: Vector)
    requires |tiles| == Cells && |frozen| == Cells
    ensures !ShiftGrid(tiles, frozen, v).moved ==> ShiftGrid(tiles, frozen, v).tiles == tiles
  {
    PassesUnmoved(Grid(tiles, frozen, false), v, BoardSide);
  }

  // ---------------------------------------------------------------------
  // Moved implies changed: a rank that every write advances

  /** Progress of cell k along v: its coordinate on v's axis, signed. */
  function Progress(k: int, v: Vector): (p: int)
    requires 0 <= k
  {
    v.dx * (k % BoardSide) + v.dy * (k / BoardSide)
  }

  /** Sum of value times progress over the cells s, which start at index
      base. */
  function Weight(s: seq<int>, v: Vector, base: nat): (w: int)
  {
    if s == [] then 0 else s[0] * Progress(base, v) + Weight(s[1..], v, base + 1)
  }

  /** 1 on the occupied cells, 0 on the empty ones. */
  function Mask(s: seq<int>): (m: seq<int>)
    ensures |m| == |s| && forall k :: 0 <= k < |s| ==> m[k] == (if s[k] != 0 then 1 else 0)
  {
    seq(|s|, k requires 0 <= k < |s| => if s[k] != 0 then 1 else 0)
  }

  /** The rank of a tile map: its number of occupied cells, and the total
      progress of those cells along v. */
  function Spread(s: seq<int>, v: Vector): (w: int)
  {
    Weight(Mask(s), v, 0)
  }

  /** t has advanced from s: fewer occupied cells, or as many and at least
      (strictly: more) total progress. */
  predicate Advanced(t: seq<int>, s: seq<int>, v: Vector, strict: bool) {
    Occupied(t) < Occupied(s) ||
    (Occupied(t) == Occupied(s) && (if strict then Spread(t, v) > Spread(s, v) else Spread(t, v) >= Spread(s, v)))
  }

  lemma {:induction false} WeightUpdate(s: seq<int>, v: Vector, base: nat, k: int, x: int)
    requires 0 <= k < |s|
    ensures Weight(s[k := x], v, base) == Weight(s, v, base) + (x - s[k]) * Progress(base + k, v)
  {
    if k == 0 {
      assert s[k := x][1..] == s[1..];
      assert x * Progress(base, v) == s[0] * Progress(base, v) + (x - s[0]) * Progress(base, v);
    } else {
      assert s[k := x][1..] == s[1..][k - 1 := x];
      WeightUpdate(s[1..], v, base + 1, k - 1, x);
    }
  }

  /** The neighbour along a unit vector is one unit further along it. */
  lemma NeighbourProgress(i: int, v: Vector)
    requires 0 <= i < Cells && IsUnit(v) && Neighbour(i, v).Some?
    ensures Progress(Neighbour(i, v).value, v) == Progress(i, v) + 1
  {
    var n := Neighbour(i, v).value;
    var (x, y) := IToPosition(i);
    assert n % BoardSide == x + v.dx && n / BoardSide == y + v.dy;
  }

  /** Moving value c from cell i into cell n one unit further along v,
      where n held old, raises the weight by c. */
  lemma MoveWeight(s: seq<int>, v: Vector, i: int, n: int, old_n: int, new_n: int)
    requires 0 <= i < |s| && 0 <= n < |s| && i != n
    requires s[n] == old_n && new_n - old_n == s[i]
    requires Progress(n, v) == Progress(i, v) + 1
    ensures Weight(s[n := new_n][i := 0], v, 0) == Weight(s, v, 0) + s[i]
  {
    var c := s[i];
    WeightUpdate(s, v, 0, n, new_n);
    WeightUpdate(s[n := new_n], v, 0, i, 0);
    assert s[n := new_n][i] == c;
    MoveGain(c, Progress(i, v));
  }

  lemma MoveGain(c: int, p: int)
    ensures c * (p + 1) + (0 - c) * p == c
  {
  }

  /** A merge removes an occupied cell; a slide keeps the count and moves
      one occupied cell a unit further along v. */
  lemma StepAdvances(g: Grid, v: Vector, i: int)
    requires WellFormed(g) && 0 <= i < Cells && IsUnit(v)
    ensures ActionAt(g, v, i) != Skip ==> Advanced(Step(g, v, i).tiles, g.tiles, v, true)
    ensures ActionAt(g, v, i) == Skip ==> Step(g, v, i) == g
  {
    StepOccupied(g, v, i);
    match ActionAt(g, v, i)
    case Skip =>
    case Merge(n) =>
    case Slide(n) =>
      var c := g.tiles[i];
      NeighbourProgress(i, v);
      assert Mask(g.tiles[n := c][i := 0]) == Mask(g.tiles)[n := 1][i := 0];
      MoveWeight(Mask(g.tiles), v, i, n, 0, 1);
  }

  lemma {:induction false} ScanAdvances(g: Grid, v: Vector, i: int)
    requires WellFormed(g) && 0 <= i <= Cells && IsUnit(v)
    ensures Advanced(Scan(g, v, i).tiles, g.tiles, v, false)
    ensures Scan(g, v, i).moved && !g.moved ==> Advanced(Scan(g, v, i).tiles, g.tiles, v, true)
  {
    if i > 0 {
      ScanAdvances(g, v, i - 1);
      StepAdvances(Scan(g, v, i - 1), v, i - 1);
    }
  }

  lemma {:induction false} PassesAdvance(g: Grid, v: Vector, p: nat)
    requires WellFormed(g) && IsUnit(v) && !g.moved
    ensures Advanced(Passes(g, v, p).tiles, g.tiles, v, false)
    ensures Passes(g, v, p).moved ==> Advanced(Passes(g, v, p).tiles, g.tiles, v, true)
  {
    if p > 0 {
      PassesAdvance(g, v, p - 1);
      ScanAdvances(Passes(g, v, p - 1), v, Cells);
    }
  }

  /** For the four directions, Shift returns true exactly when the tile
      map changed: no sequence of slides and merges leads back to the map
      it started from. */
  lemma ShiftMovedIffChanged(tiles: seq<int>, frozen: seq<bool>, d: Direction)
    requires |tiles| == Cells && |frozen| == Cells
    ensures ShiftGrid(tiles, frozen, DirVector(d)).moved <==> ShiftGrid(tiles, frozen, DirVector(d)).tiles != tiles
  {
    PassesAdvance(Grid(tiles, frozen, false), DirVector(d), BoardSide);
    ShiftUnmovedUnchanged(tiles, frozen, DirVector(d));
  }

  // ---------------------------------------------------------------------
  // The freeze map within one shift

  /** A step never clears a freeze bit, and a merge sets the bits of both
      of its cells. */
  lemma StepFreeze(g: Grid, v: Vector, i: int)
    requires WellFormed(g) && 0 <= i < Cells
    ensures forall k :: 0 <= k < Cells && g.frozen[k] ==> Step(g, v, i).frozen[k]
    ensures ActionAt(g, v, i).Merge? ==>
      Step(g, v, i).frozen[i] && Step(g, v, i).frozen[ActionAt(g, v, i).into]
  {
  }

  lemma {:induction false} ScanKeepsFreeze(g: Grid, v: Vector, i1: int, i2: int, k: int)
    requires WellFormed(g) && 0 <= i1 <= i2 <= Cells && 0 <= k < Cells
    requires Scan(g, v, i1).frozen[k]
    ensures Scan(g, v, i2).frozen[k]
  {
    if i2 > i1 {
      ScanKeepsFreeze(g, v, i1, i2 - 1, k);
      StepFreeze(Scan(g, v, i2 - 1), v, i2 - 1);
    }
  }

  /** Once set during a shift, a freeze bit stays set at every later
      point of that shift. */
  lemma {:induction false} FreezePersists(g: Grid, v: Vector, p1: nat, i1: int, p2: nat, i2: int, k: int)
    requires WellFormed(g) && 0 <= i1 <= Cells && 0 <= i2 <= Cells && 0 <= k < Cells
    requires p1 < p2 || (p1 == p2 && i1 <= i2)
    requires At(g, v, p1, i1).frozen[k]
    ensures At(g, v, p2, i2).frozen[k]
    decreases p2 - p1, i2
  {
    if p1 == p2 {
      ScanKeepsFreeze(Passes(g, v, p1), v, i1, i2, k);
    } else {
      ScanKeepsFreeze(Passes(g, v, p1), v, i1, Cells, k);
      assert At(g, v, p1 + 1, 0) == At(g, v, p1, Cells);
      FreezePersists(g, v, p1 + 1, 0, p2, i2, k);
    }
  }

  /** Within one shift, a cell that was the source or the target of a
      merge is never again the source of a merge. */
  lemma MergedCellsNeverMergeAgain(g: Grid, v: Vector, p: nat, i: int, p2: nat, i2: int)
    requires WellFormed(g) && 0 <= i < Cells && 0 <= i2 < Cells
    requires ActionAt(At(g, v, p, i), v, i).Merge?
    requires i2 == i || i2 == ActionAt(At(g, v, p, i), v, i).into
    requires p < p2 || (p == p2 && i < i2)
    ensures !ActionAt(At(g, v, p2, i2), v, i2).Merge?
  {
    StepFreeze(At(g, v, p, i), v, i);
    assert At(g, v, p, i + 1).frozen[i2];
    FreezePersists(g, v, p, i + 1, p2, i2, i2);
  }

  // ---------------------------------------------------------------------
  // A direction code outside the enumeration

  predicate AllZero(s: seq<int>) {
    forall k :: 0 <= k < |s| ==> s[k] == 0
  }

  /** With the vector (0, 0) every cell is its own neighbour: the merge
      branch writes 2 * cur and then 0 to the same cell, so the first pass
      clears each cell it visits. */
  lemma {:induction false} ZeroVectorScan(g: Grid, i: int)
    requires WellFormed(g) && 0 <= i <= Cells && !g.moved
    requires forall k :: 0 <= k < Cells ==> !g.frozen[k]
    ensures forall k :: 0 <= k < i ==> Scan(g, Vector(0, 0), i).tiles[k] == 0
    ensures forall k :: i <= k < Cells ==> Scan(g, Vector(0, 0), i).tiles[k] == g.tiles[k]
    ensures forall k :: i <= k < Cells ==> !Scan(g, Vector(0, 0), i).frozen[k]
    ensures Scan(g, Vector(0, 0), i).moved <==> exists k :: 0 <= k < i && g.tiles[k] != 0
  {
    if i > 0 {
      ZeroVectorScan(g, i - 1);
      ZeroVectorScanStep(g, Scan(g, Vector(0, 0), i - 1), i, Scan(g, Vector(0, 0), i));
    }
  }

  /** The induction step of ZeroVectorScan: the facts about the first i-1
      cells carry over to the first i once cell i-1 has merged into itself. */
  lemma ZeroVectorScanStep(g: Grid, h: Grid, i: int, r: Grid)
    requires WellFormed(g) && WellFormed(h) && 0 < i <= Cells
    requires forall k :: 0 <= k < i - 1 ==> h.tiles[k] == 0
    requires forall k :: i - 1 <= k < Cells ==> h.tiles[k] == g.tiles[k]
    requires forall k :: i - 1 <= k < Cells ==> !h.frozen[k]
    requires h.moved <==> exists k :: 0 <= k < i - 1 && g.tiles[k] != 0
    requires r == Step(h, Vector(0, 0), i - 1)
    ensures forall k :: 0 <= k < i ==> r.tiles[k] == 0
    ensures forall k :: i <= k < Cells ==> r.tiles[k] == g.tiles[k]
    ensures forall k :: i <= k < Cells ==> !r.frozen[k]
    ensures r.moved <==> exists k :: 0 <= k < i && g.tiles[k] != 0
  {
    ZeroVectorStep(h, i - 1);
    if g.tiles[i - 1] != 0 {
      assert 0 <= i - 1 < i && g.tiles[i - 1] != 0;
    }
  }

  /** One step under (0, 0): an unfrozen cell merges into itself and ends
      empty. */
  lemma ZeroVectorStep(h: Grid, i: int)
    requires WellFormed(h) && 0 <= i < Cells && !h.frozen[i]
    ensures Step(h, Vector(0, 0), i).tiles == h.tiles[i := 0]
    ensures Step(h, Vector(0, 0), i).moved == (h.moved || h.tiles[i] != 0)
    ensures forall k :: 0 <= k < Cells && k != i ==> Step(h, Vector(0, 0), i).frozen[k] == h.frozen[k]
  {
    assert Neighbour(i, Vector(0, 0)) == Some(i);
  }

  /** Every step on an all-zero tile map is a skip. */
  lemma {:induction false} ZeroScanSkips(g: Grid, v: Vector, i: int)
    requires WellFormed(g) && 0 <= i <= Cells && AllZero(g.tiles)
    ensures Scan(g, v, i) == g
  {
    if i > 0 {
      ZeroScanSkips(g, v, i - 1);
    }
  }

  lemma {:induction false} ZeroVectorPasses(g: Grid, p: nat)
    requires WellFormed(g) && p >= 1 && !g.moved
    requires forall k :: 0 <= k < Cells ==> !g.frozen[k]
    ensures AllZero(Passes(g, Vector(0, 0), p).tiles)
    ensures Passes(g, Vector(0, 0), p).moved <==> !AllZero(g.tiles)
  {
    if p == 1 {
      ZeroVectorScan(g, Cells);
    } else {
      ZeroVectorPasses(g, p - 1);
      ZeroScanSkips(Passes(g, Vector(0, 0), p - 1), Vector(0, 0), Cells);
    }
  }

  /** Shift with a direction code other than 0..3 (getShiftVector gives
      (0, 0)) empties every cell of a board that starts unfrozen, and
      reports movement exactly when the board was not already empty. */
  lemma OutOfRangeCodeWipes(tiles: seq<int>, code: int)
    requires |tiles| == Cells && !(0 <= code < 4)
    ensures AllZero(ShiftGrid(tiles, NoneFrozen(), ShiftVector(code)).tiles)
    ensures ShiftGrid(tiles, NoneFrozen(), ShiftVector(code)).moved <==> !AllZero(tiles)
  {
    ZeroVectorPasses(Grid(tiles, NoneFrozen(), false), BoardSide);
  }
}
