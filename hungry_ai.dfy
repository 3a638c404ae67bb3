/** The Hungry player of ai/hungry.go. Its comment says it maximises the
    score of each move, but the loop never sets hasBest to true, so FindBest
    always falls back to the last direction the board can shift. */
module HungryAI {
  import opened Geometry
  import opened GameApi

  /** What FindBest returns: the last shiftable direction of dirs, or the
      zero Direction value (DirRight, code 0) when there is none. */
  function Chosen(dirs: seq<Direction>, canShift: Direction -> bool): (d: Direction)
    ensures (exists k :: 0 <= k < |dirs| && canShift(dirs[k])) ==>
      d in dirs && canShift(d) && exists k :: 0 <= k < |dirs| && dirs[k] == d && forall j :: k < j < |dirs| ==> !canShift(dirs[j])
    ensures (forall k :: 0 <= k < |dirs| ==> !canShift(dirs[k])) ==> d == Right && d.Code() == 0
  {
    LastShiftableSpec(dirs, canShift);
    match LastShiftable(dirs, canShift)
    case Some(d) => d
    case None => Right
  }

  /** FindBest: the loop over Directions() with its locals. canShift and
      score are the two answers of the board's CanShift. hasBest is never
      set to true and bestScore stays 0, so the fallback always runs; the result
      does not depend on score, and no error is ever returned. */
  method FindBest(dirs: seq<Direction>, canShift: Direction -> bool, score: Direction -> int)
    returns (best: Direction, failed: bool)
    ensures best == Chosen(dirs, canShift)
    ensures !failed
  {
    var bestDirection := Right;
    var available := Right;
    var bestScore := 0;
    var hasBest := false;
    for i := 0 to |dirs|
      invariant !hasBest && bestScore == 0
      invariant available == Chosen(dirs[..i], canShift)
    {
      var dir := dirs[i];
      assert dirs[..i + 1][..i] == dirs[..i];
      if canShift(dir) {
        available := dir;
        if score(dir) > bestScore {
          bestDirection := dir;
          hasBest := false;
        }
      }
    }
    assert dirs[..|dirs|] == dirs;
    if !hasBest {
      bestDirection := available;
    }
    return bestDirection, false;
  }

  /** One iteration of Solve's loop, with the board's answers as inputs
      (hasMovesLeft, the two halves of CanShift, and shiftFails for an
      error from Shift). */
  method SolveStep(hasMovesLeft: bool, dirs: seq<Direction>, canShift: Direction -> bool,
                   score: Direction -> int, shiftFails: Direction -> bool)
    returns (it: Iteration)
    ensures !hasMovesLeft ==> it == Finished
    ensures hasMovesLeft && shiftFails(Chosen(dirs, canShift)) ==> it == ShiftError(Chosen(dirs, canShift))
    ensures hasMovesLeft && !shiftFails(Chosen(dirs, canShift)) ==> it == Moved(Chosen(dirs, canShift))
  {
    if !hasMovesLeft {
      return Finished;
    }
    var best, failed := FindBest(dirs, canShift, score);
    if failed {
      return FindBestError;
    }
    if shiftFails(best) {
      return ShiftError(best);
    }
    return Moved(best);
  }
}
