/** The Naive player of ai/naive.go: Up and Left whenever it can, Down and
    Right only when it has to, alternating which of Up and Left it tries
    first. */
module NaiveAI {
  import opened Geometry
  import opened GameApi

  /** The order FindBest tries the directions in. */
  function Preference(nextIsUp: bool): (order: seq<Direction>)
    ensures |order| == 4 && order[2] == Down && order[3] == Right
    ensures order[0] == (if nextIsUp then Up else Left)
    ensures Up in order && Left in order && Down in order && Right in order
  {
    if nextIsUp then [Up, Left, Down, Right] else [Left, Up, Down, Right]
  }

  /** The new value of nextIsUp once best is chosen: an Up move while Up
      comes first hands the lead to Left, a Left move while Left comes
      first hands it back to Up. */
  function Toggle(nextIsUp: bool, best: Direction): (next: bool)
    ensures nextIsUp && !next <==> nextIsUp && best == Up
    ensures !nextIsUp && next <==> !nextIsUp && best == Left
  {
    if nextIsUp && best == Up then false
    else if !nextIsUp && best == Left then true
    else nextIsUp
  }

  class Naive {
    /** The board pointer of the Go struct is the oracle each operation
        receives; nextIsUp is the player's own state. */
    var nextIsUp: bool

    /** NewNaive: the first move prefers Up. */
    constructor ()
      ensures nextIsUp
    {
      nextIsUp := true;
    }

    /** FindBest: the if-chain over the board's CanShift answers. None
        stands for the pair (DirNone, "no possible direction"). The board
        argument of the Go method is never read, so it has no
        counterpart. */
    function FindBest(canShift: Direction -> bool): (r: Option<Direction>)
      reads this
      ensures r == FirstShiftable(Preference(nextIsUp), canShift)
      ensures r.None? <==> !canShift(Up) && !canShift(Left) && !canShift(Down) && !canShift(Right)
      ensures r.Some? ==> canShift(r.value)
    {
      PreferenceWalk(nextIsUp, canShift);
      if nextIsUp && canShift(Up) then Some(Up)
      else if nextIsUp && canShift(Left) then Some(Left)
      else if !nextIsUp && canShift(Left) then Some(Left)
      else if !nextIsUp && canShift(Up) then Some(Up)
      else if canShift(Down) then Some(Down)
      else if canShift(Right) then Some(Right)
      else None
    }

    /** One iteration of Solve's loop. The board's answers are inputs:
        hasMovesLeft for HasMovesLeft, canShift for CanShift and
        shiftFails for an error from Shift. nextIsUp is toggled before the
        shift is attempted, so a failing shift still toggles it. */
    method SolveStep(hasMovesLeft: bool, canShift: Direction -> bool, shiftFails: Direction -> bool)
      returns (it: Iteration)
      modifies this
      ensures !hasMovesLeft ==> it == Finished && nextIsUp == old(nextIsUp)
      ensures hasMovesLeft && old(FindBest(canShift)).None? ==> it == FindBestError && nextIsUp == old(nextIsUp)
      ensures hasMovesLeft && old(FindBest(canShift)).Some? ==>
        var best := old(FindBest(canShift)).value;
        nextIsUp == Toggle(old(nextIsUp), best) &&
        it == (if shiftFails(best) then ShiftError(best) else Moved(best))
    {
      if !hasMovesLeft {
        return Finished;
      }
      var best := FindBest(canShift);
      if best.None? {
        return FindBestError;
      }
      if nextIsUp && best.value == Up {
        nextIsUp := false;
      } else if !nextIsUp && best.value == Left {
        nextIsUp := true;
      }
      if shiftFails(best.value) {
        return ShiftError(best.value);
      }
      return Moved(best.value);
    }
  }

  /** FirstShiftable over a preference order, one entry at a time. */
  lemma PreferenceWalk(nextIsUp: bool, canShift: Direction -> bool)
    ensures var first := if nextIsUp then Up else Left;
      var second := if nextIsUp then Left else Up;
      FirstShiftable(Preference(nextIsUp), canShift)
        == if canShift(first) then Some(first)
           else if canShift(second) then Some(second)
           else if canShift(Down) then Some(Down)
           else if canShift(Right) then Some(Right)
           else None
  {
    var order := Preference(nextIsUp);
    var second := if nextIsUp then Left else Up;
    assert order[1..] == [second, Down, Right];
    assert order[1..][1..] == [Down, Right];
    assert order[1..][1..][1..] == [Right];
    assert FirstShiftable([Right], canShift) == if canShift(Right) then Some(Right) else None;
    assert FirstShiftable([Down, Right], canShift)
        == if canShift(Down) then Some(Down) else FirstShiftable([Right], canShift);
  }

  /** Down is only chosen when neither Up nor Left can move, and Right
      only when no other direction can. */
  lemma DownBeforeRight(nextIsUp: bool, canShift: Direction -> bool)
    ensures FirstShiftable(Preference(nextIsUp), canShift) == Some(Down) ==> !canShift(Up) && !canShift(Left)
    ensures FirstShiftable(Preference(nextIsUp), canShift) == Some(Right) ==>
      !canShift(Up) && !canShift(Left) && !canShift(Down)
  {
    var order := Preference(nextIsUp);
    FirstShiftableSpec(order, canShift);
    if FirstShiftable(order, canShift) == Some(Down) {
      var k :| 0 <= k < |order| && order[k] == Down && forall j :: 0 <= j < k ==> !canShift(order[j]);
      assert k == 2;
    }
    if FirstShiftable(order, canShift) == Some(Right) {
      var k :| 0 <= k < |order| && order[k] == Right && forall j :: 0 <= j < k ==> !canShift(order[j]);
      assert k == 3;
    }
  }

  /** While both Up and Left can move, the player alternates them: the
      preferred one is chosen and the preference flips. */
  lemma AlternatesUpAndLeft(nextIsUp: bool, canShift: Direction -> bool)
    requires canShift(Up) && canShift(Left)
    ensures FirstShiftable(Preference(nextIsUp), canShift) == Some(if nextIsUp then Up else Left)
    ensures Toggle(nextIsUp, if nextIsUp then Up else Left) == !nextIsUp
  {
  }
}
