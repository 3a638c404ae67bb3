/** What the ai package sees of the newer game.Board. CanShift,
    HasMovesLeft, Directions and the error-returning Shift belong to a
    version of game/board.go that is not part of this model: their answers
    are inputs to the operations below. */
module GameApi {
  import opened Geometry

  /** How one iteration of a Solve loop ends: the loop condition
      HasMovesLeft was false (Solve returns nil), FindBest failed, the
      board refused the chosen shift, or the shift was made and the loop
      goes on. */
  datatype Iteration = Finished | FindBestError | ShiftError(dir: Direction) | Moved(dir: Direction)

  /** The first direction of order that canShift accepts. */
  function FirstShiftable(order: seq<Direction>, canShift: Direction -> bool): (r: Option<Direction>)
    ensures r.Some? ==> r.value in order && canShift(r.value)
  {
    if order == [] then None
    else if canShift(order[0]) then Some(order[0])
    else FirstShiftable(order[1..], canShift)
  }

  /** FirstShiftable finds nothing exactly when no entry is accepted, and
      what it finds is preceded only by rejected entries. */
  lemma {:induction false} FirstShiftableSpec(order: seq<Direction>, canShift: Direction -> bool)
    ensures FirstShiftable(order, canShift).None? <==> forall k :: 0 <= k < |order| ==> !canShift(order[k])
    ensures FirstShiftable(order, canShift).Some? ==>
      exists k :: 0 <= k < |order| && order[k] == FirstShiftable(order, canShift).value &&
        forall j :: 0 <= j < k ==> !canShift(order[j])
  {
    if order != [] && !canShift(order[0]) {
      FirstShiftableSpec(order[1..], canShift);
      if FirstShiftable(order, canShift).Some? {
        var k :| 0 <= k < |order[1..]| && order[1..][k] == FirstShiftable(order, canShift).value &&
          forall j :: 0 <= j < k ==> !canShift(order[1..][j]);
        assert order[k + 1] == FirstShiftable(order, canShift).value;
        assert forall j :: 0 <= j < k + 1 ==> !canShift(order[j]) by {
          forall j | 0 <= j < k + 1 ensures !canShift(order[j]) {
            if j > 0 {
              assert order[j] == order[1..][j - 1];
            }
          }
        }
      } else {
        assert forall k :: 1 <= k < |order| ==> order[k] == order[1..][k - 1];
      }
    }
  }

  /** The last direction of dirs that canShift accepts. */
  function LastShiftable(dirs: seq<Direction>, canShift: Direction -> bool): (r: Option<Direction>)
    ensures r.Some? ==> r.value in dirs && canShift(r.value)
  {
    if dirs == [] then None
    else if canShift(dirs[|dirs| - 1]) then Some(dirs[|dirs| - 1])
    else LastShiftable(dirs[..|dirs| - 1], canShift)
  }

  /** LastShiftable finds nothing exactly when no entry is accepted, and
      what it finds is followed only by rejected entries. */
  lemma {:induction false} LastShiftableSpec(dirs: seq<Direction>, canShift: Direction -> bool)
    ensures LastShiftable(dirs, canShift).None? <==> forall k :: 0 <= k < |dirs| ==> !canShift(dirs[k])
    ensures LastShiftable(dirs, canShift).Some? ==>
      exists k :: 0 <= k < |dirs| && dirs[k] == LastShiftable(dirs, canShift).value &&
        forall j :: k < j < |dirs| ==> !canShift(dirs[j])
  {
    if dirs != [] && !canShift(dirs[|dirs| - 1]) {
      var init := dirs[..|dirs| - 1];
      LastShiftableSpec(init, canShift);
      assert forall k :: 0 <= k < |init| ==> init[k] == dirs[k];
      if LastShiftable(dirs, canShift).Some? {
        var k :| 0 <= k < |init| && init[k] == LastShiftable(dirs, canShift).value &&
          forall j :: k < j < |init| ==> !canShift(init[j]);
        assert dirs[k] == LastShiftable(dirs, canShift).value;
      }
    }
  }
}
