/** Grid geometry shared by both shift engines: the 4x4 board, the four
    directions with their Go enumeration codes, the unit step vector of a
    direction and the conversion between (x, y) positions and row-major
    cell indices. */
module Geometry {

  /** Side length of the square board. */
  const BoardSide: int := 4
  /** Number of cells, BoardSide * BoardSide. */
  const Cells: int := 16

  /** The four move directions. In the Go source Direction is a plain int
      and these are its first four iota values (see Code). */
  datatype Direction = Right | Down | Left | Up
  {
    /** The Go integer value of the direction. */
    function Code(): (c: int)
      ensures 0 <= c < 4
    {
      match this
      case Right => 0
      case Down => 1
      case Left => 2
      case Up => 3
    }
  }

  /** The direction whose Go code is c, if c is one of the four. */
  function DirectionOfCode(c: int): (d: Option<Direction>)
    ensures d.Some? <==> 0 <= c < 4
    ensures d.Some? ==> d.value.Code() == c
  {
    if c == 0 then Some(Right)
    else if c == 1 then Some(Down)
    else if c == 2 then Some(Left)
    else if c == 3 then Some(Up)
    else None
  }

  datatype Option<T> = None | Some(value: T)

  /** A step (dx, dy) in grid coordinates: x grows to the right, y grows
      downwards. */
  datatype Vector = Vector(dx: int, dy: int)

  /** A step of length one along exactly one axis. */
  predicate IsUnit(v: Vector) {
    (v.dx == 0 && (v.dy == 1 || v.dy == -1)) || (v.dy == 0 && (v.dx == 1 || v.dx == -1))
  }

  /** getShiftVector over the raw Go integer: a switch on the four codes
      whose results default to (0, 0) for any other value. */
  function ShiftVector(code: int): (v: Vector)
    ensures IsUnit(v) <==> 0 <= code < 4
    ensures v == Vector(0, 0) <==> !(0 <= code < 4)
  {
    if code == Right.Code() then Vector(1, 0)
    else if code == Down.Code() then Vector(0, 1)
    else if code == Left.Code() then Vector(-1, 0)
    else if code == Up.Code() then Vector(0, -1)
    else Vector(0, 0)
  }

  /** The step vector of a well-formed direction. */
  function DirVector(d: Direction): (v: Vector)
    ensures IsUnit(v)
  {
    ShiftVector(d.Code())
  }

  /** Each direction moves along its own axis towards its own edge:
      Right and Down increase a coordinate, Left and Up decrease one. */
  lemma DirVectorTable()
    ensures DirVector(Right) == Vector(1, 0) && DirVector(Down) == Vector(0, 1)
    ensures DirVector(Left) == Vector(-1, 0) && DirVector(Up) == Vector(0, -1)
  {
  }

  /** Distinct directions have distinct vectors, and Left/Up are the
      opposites of Right/Down. */
  lemma DirVectorInjective(d1: Direction, d2: Direction)
    ensures DirVector(d1) == DirVector(d2) <==> d1 == d2
    ensures DirVector(Left) == Vector(-DirVector(Right).dx, -DirVector(Right).dy)
    ensures DirVector(Up) == Vector(-DirVector(Down).dx, -DirVector(Down).dy)
  {
  }

  /** positionToI: the row-major index of cell (x, y). */
  function PositionToI(x: int, y: int): (i: int)
    ensures 0 <= x < BoardSide && 0 <= y < BoardSide ==> 0 <= i < Cells
    ensures 0 <= x < BoardSide && 0 <= y < BoardSide ==> i % BoardSide == x && i / BoardSide == y
  {
    y * BoardSide + x
  }

  /** iToPosition: the column and row of cell index i. */
  function IToPosition(i: int): (p: (int, int))
    requires 0 <= i
    ensures 0 <= p.0 < BoardSide
    ensures i < Cells ==> 0 <= p.1 < BoardSide
    ensures p.1 * BoardSide + p.0 == i
  {
    (i % BoardSide, i / BoardSide)
  }

  /** The two conversions are mutual inverses on the board. */
  lemma PositionRoundTrip(x: int, y: int, i: int)
    ensures 0 <= x < BoardSide && 0 <= y < BoardSide ==> IToPosition(PositionToI(x, y)) == (x, y)
    ensures 0 <= i < Cells ==> PositionToI(IToPosition(i).0, IToPosition(i).1) == i
  {
  }

  /** The conversion examples listed with the Go tests. */
  lemma PositionExamples()
    ensures PositionToI(0, 0) == 0 && IToPosition(0) == (0, 0)
    ensures PositionToI(1, 0) == 1 && IToPosition(1) == (1, 0)
    ensures PositionToI(0, 1) == 4 && IToPosition(4) == (0, 1)
    ensures PositionToI(3, 3) == 15 && IToPosition(15) == (3, 3)
  {
  }
}
