/** Measures over a tile map (a sequence of cell values): the sum of all
    tiles, the number of occupied cells and the tile-value invariant. */
module Tiles {

  /** Sum of all cell values. */
  function Sum(s: seq<int>): (total: int)
  {
    if s == [] then 0 else s[0] + Sum(s[1..])
  }

  /** Number of non-empty (non-zero) cells. */
  function Occupied(s: seq<int>): (n: nat)
    ensures n <= |s|
  {
    if s == [] then 0 else (if s[0] != 0 then 1 else 0) + Occupied(s[1..])
  }

  /** A positive power of two that is at least 2. */
  predicate IsPow2(v: int)
    decreases if v < 0 then 0 else v
  {
    v == 2 || (v > 2 && v % 2 == 0 && IsPow2(v / 2))
  }

  /** A legal cell value: empty, or a power of two of at least 2. */
  predicate IsTileValue(v: int) {
    v == 0 || IsPow2(v)
  }

  /** Every cell holds a legal value. */
  predicate AllTileValues(s: seq<int>) {
    forall k :: 0 <= k < |s| ==> IsTileValue(s[k])
  }

  /** Doubling a power of two gives a power of two. */
  lemma DoublePow2(v: int)
    requires IsPow2(v)
    ensures IsPow2(2 * v)
  {
    assert (2 * v) / 2 == v;
  }

  /** Changing one cell changes the sum by the difference. */
  lemma {:induction false} SumUpdate(s: seq<int>, k: int, v: int)
    requires 0 <= k < |s|
    ensures Sum(s[k := v]) == Sum(s) - s[k] + v
  {
    if k == 0 {
      assert s[k := v][1..] == s[1..];
    } else {
      assert s[k := v][1..] == s[1..][k - 1 := v];
      SumUpdate(s[1..], k - 1, v);
    }
  }

  /** Changing one cell changes the count of occupied cells by exactly the
      change in that cell's occupancy. */
  lemma {:induction false} OccupiedUpdate(s: seq<int>, k: int, v: int)
    requires 0 <= k < |s|
    ensures Occupied(s[k := v]) == Occupied(s) - (if s[k] != 0 then 1 else 0) + (if v != 0 then 1 else 0)
  {
    if k == 0 {
      assert s[k := v][1..] == s[1..];
    } else {
      assert s[k := v][1..] == s[1..][k - 1 := v];
      OccupiedUpdate(s[1..], k - 1, v);
    }
  }
}
