# teafortwo in Dafny

A model of the engine of teafortwo, a 2048-style game on a 4×4 board of
power-of-two tiles, and of its two automatic players.

- `geometry.dfy`: the four directions and their iota codes, the unit step
  vector of each, and the index ↔ (x, y) conversion (`game/board.go`;
  the same members model `iToPosition` and `getShiftVector` of the root
  `board.go`, lines 85-87 and 118-131).
- `tiles.dfy`: tile sums, occupied-cell counts and the power-of-two values
  a tile may hold.
- `shift_engine.dfy`: `Board.Shift` of `game/board.go` as functions on
  values. The unit is one iteration of the inner loop (`Step`, for one
  cell). `Scan` is a prefix of one pass over the 16 cells, `Passes` is
  p whole passes, and `ShiftGrid` runs BoardSide of them and adds the final clearing of the
  freeze map.
- `game_board.dfy`: the `Board` class of `game/board.go`. The tile map and
  the freeze map are arrays updated in place. `Shift` is two nested loops
  whose invariants tie the arrays to `Passes`/`Scan`. `PlaceRandom` takes
  its two random draws as inputs.
- `shift_properties.dfy`: what a shift keeps and what it changes:
  - the tile sum and the power-of-two tile values are kept;
  - the number of occupied cells falls by exactly one per merge;
  - a shift reports movement exactly when the board changed;
  - a merged cell is frozen for the rest of the shift;
  - a direction code outside 0..3 gives the zero vector, which makes every
    tile merge into itself and vanish.
- `lines.dfy`: line independence. A Left/Right shift treats each row on its
  own, and an Up/Down shift each column, with a four-cell version of the
  same engine.
- `shift_vectors.dfy`: the expectations of `game/board_test.go`, plus traced
  shifts (two Right, one Left) proved with line independence, and the
  four-cell line lemmas (`LineVectors`) they use.
- `legacy_board.dfy`: the older engine of the root `board.go` (package
  `main`). Its bounds test lets a coordinate equal to BoardSide through,
  and its merge freezes only the source cell. A Go index panic is one of
  its outcomes.
- `game_api.dfy`: what the players see of the board. The newer board
  methods `CanShift`, `HasMovesLeft`, `Directions` and the error-returning
  `Shift` are not part of this model. Their answers are inputs: functions
  from a direction to a boolean or a score.
- `naive_ai.dfy`: the Naive player. It has a preference order, toggles its
  `nextIsUp` flag, and each `Solve` iteration is one step.
- `hungry_ai.dfy`: the Hungry player's `FindBest` loop and one `Solve`
  iteration.

The doc comment of the Hungry player (ai/hungry.go:5) says it maximises
the score of each move. Its `FindBest` does not, and the model follows the
code:
- it never sets `hasBest` to true, so the score is never used;
- its fallback variable is overwritten on every shiftable direction, so it
  commits the LAST shiftable direction of `Directions()`.

The freeze map keeps a merged tile from merging again while it stays in
its cell, as TestNoRemerge (game/board_test.go:29-51) checks. The freeze
bit belongs to the cell, not to the tile: a merged tile can slide out of
its frozen cell and then merge again (row 2 2 0 4 shifted Right gives
0 0 0 8). The model follows the code, and `ShiftVectors.RightMergesTwice`
states that case.

`Shift` in game/board.go keeps no score: it returns only a bool, whether
any tile moved.

## Model

| member | source | states |
|---|---|---|
| Geometry.Direction.Code | game/board.go:14-19 | the directions are the iota values 0..3 |
| Geometry.DirectionOfCode | game/board.go:12-19 | a Go `Direction` value names a direction exactly when it is in 0..3, and the direction found has that code |
| Geometry.ShiftVector | game/board.go:152-165 | the vector is a unit step exactly for codes 0..3; every other code gives (0, 0), the zero values of the switch |
| Geometry.DirVector | game/board.go:152-165 | each of the four directions has a unit step vector |
| Geometry.DirVectorTable | game/board.go:152-165 | Right = (1,0), Down = (0,1), Left = (-1,0), Up = (0,-1) |
| Geometry.DirVectorInjective | game/board.go:152-165 | distinct directions have distinct vectors; Left is opposite Right and Up is opposite Down |
| Geometry.PositionToI | game/board.go:171-173 | an on-board (x, y) gives an index in 0..15 whose column is x and whose row is y |
| Geometry.IToPosition | game/board.go:167-169 | the column is in 0..3, the row is in 0..3 for an index below 16, and the pair recombines to the index |
| Geometry.PositionRoundTrip | game/board.go:167-173 | positionToI and iToPosition are inverse on the board |
| Geometry.PositionExamples | game/board_test.go:185-235 | the four position cases of the test table |
| ShiftEngine.NoneFrozen | game/board.go:45-47 | the cleared freeze map has 16 cells, none of them frozen |
| ShiftEngine.Neighbour | game/board.go:61-68 | the neighbour exists exactly when both coordinates pass the `>= BoardSide` bounds test; it then lies in 0..15 and is i + dy·4 + dx |
| ShiftEngine.ActionAt | game/board.go:57-82 | an empty cell is skipped; a slide goes only into an empty on-board neighbour; a merge happens only into an equal neighbour from an unfrozen source |
| ShiftEngine.Apply | game/board.go:72-82 | a skip changes nothing; a slide writes the tile into the target and 0 into the cell, keeps the freeze map and sets somethingHappened; a merge writes twice the tile into the target and 0 into the cell, freezes both and sets somethingHappened (a merge into the cell itself, under the zero vector, leaves it 0 and frozen); every other cell keeps its tile and freeze bit |
| ShiftEngine.Step | game/board.go:57-82 | one inner-loop iteration either changes nothing or leaves its cell empty, and sets somethingHappened exactly when the tile map changed |
| ShiftEngine.Scan | game/board.go:56 | the state once the inner loop has visited cells 0..i-1; somethingHappened, once set, stays set |
| ShiftEngine.Pass | game/board.go:56 | one full run of the inner loop over the 16 cells; somethingHappened stays set |
| ShiftEngine.Passes | game/board.go:55 | the state after p runs of the outer loop; somethingHappened stays set |
| ShiftEngine.ShiftGrid | game/board.go:49-89 | after the four passes the freeze map is cleared |
| ShiftEngine.Shifted | game/board.go:49-89 | a board that starts unfrozen ends unfrozen |
| GameBoard.EmptyTiles | game/board.go:24-27 | the zero tile map has 16 empty cells |
| GameBoard.EmptyCells | game/board.go:180-185 | the empty cells in increasing index order: every listed cell is empty, every empty cell is listed, and the list is empty exactly on a full board |
| GameBoard.Board.constructor | game/board.go:24-27 | the zero Board: every cell empty and unfrozen |
| GameBoard.Board.FromTiles | game/board_test.go:55 | a Board built from a tile map holds that map, unfrozen |
| GameBoard.Board.Get | game/board.go:29-31 | reads cell y·4+x |
| GameBoard.Board.Set | game/board.go:33-35 | writes cell y·4+x and no other |
| GameBoard.Board.Freeze | game/board.go:37-39 | sets the freeze bit of y·4+x and no other |
| GameBoard.Board.IsFrozen | game/board.go:41-43 | reads the freeze bit of y·4+x |
| GameBoard.Board.ClearFreeze | game/board.go:45-47 | every freeze bit is false afterwards |
| GameBoard.Board.Shift | game/board.go:49-89 | the new tile map and the result are those of ShiftGrid on the old state; the freeze map ends cleared |
| GameBoard.Board.ShiftCell | game/board.go:57-82 | one inner-loop iteration changes the arrays and the flag exactly as Step does |
| GameBoard.Board.IsFull | game/board.go:197-205 | true exactly when no cell is empty |
| GameBoard.Board.PlaceRandom | game/board.go:175-195 | on a full board: error BoardFull and the board unchanged; otherwise the empty cell chosen by `pick mod (number of empty cells)` receives 4 when the roll exceeds 75 and 2 otherwise, and nothing else changes |
| ShiftProperties.ShiftKeepsSum | game/board.go:72-82 | a shift keeps the sum of the tiles (a slide moves a value, a merge replaces c + c by 2c) |
| ShiftProperties.ShiftKeepsTileValues | game/board.go:76-78 | if every tile is 0 or a power of two from 2 up, it stays so after a shift |
| ShiftProperties.StepOccupied | game/board.go:72-82 | one step lowers the number of occupied cells by exactly one on a merge and keeps it otherwise |
| ShiftProperties.ShiftOccupied | game/board.go:49-89 | a shift never adds an occupied cell |
| ShiftProperties.ShiftUnmovedUnchanged | game/board.go:53-88 | when Shift returns false, the tile map is unchanged |
| ShiftProperties.ShiftMovedIffChanged | game/board.go:72-82 | Shift returns true exactly when the tile map changed (a merge removes an occupied cell, a slide moves one further along the direction, so no shift returns to its start) |
| ShiftProperties.FreezePersists | game/board.go:79-80 | a freeze bit set during a shift stays set at every later step of the same shift |
| ShiftProperties.MergedCellsNeverMergeAgain | game/board.go:76-80 | neither the source nor the target of a merge is the source of another merge later in the same shift |
| ShiftProperties.OutOfRangeCodeWipes | game/board.go:152-165 | a direction code outside 0..3 gives the zero vector; each tile then merges into itself and is cleared, and Shift reports movement exactly when the board had a tile |
| Lines.StepOwnLine | game/board.go:57-82 | restricted to the cell's own row or column, one board step is the four-cell step at the cell's position |
| Lines.ShiftByLines | game/board.go:55-84 | each cell of a shifted board is the corresponding cell of its row or column shifted alone |
| Lines.ShiftFromLines | game/board.go:55-84 | a whole shifted board follows from its four shifted lines |
| Lines.ShiftRows | game/board.go:55-84 | a Left or Right shift maps each row on its own |
| Lines.ShiftColumns | game/board.go:55-84 | an Up or Down shift maps each column on its own |
| ShiftVectors.AllZeroUp | game/board_test.go:71-85 | an empty board shifted Up stays empty |
| ShiftVectors.SparseLeft | game/board_test.go:9-27 | row 0 2 0 2 shifted Left gives 4 0 0 0 |
| ShiftVectors.NoRemergeUp | game/board_test.go:29-46 | column 2 2 2 2 shifted Up gives 4 4 0 0, not 8 0 0 0 |
| ShiftVectors.NoRemergeUpAgain | game/board_test.go:47-50 | a second Up gives 8 0 0 0 |
| ShiftVectors.TableLeft | game/board_test.go:86-100 | the Left case of the table |
| ShiftVectors.TableDown | game/board_test.go:101-115 | the Down case of the table |
| ShiftVectors.TableRight | game/board_test.go:116-130 | the Right case of the table |
| ShiftVectors.TableUpStopsAtEight | game/board_test.go:131-145 | the first of the three further Up cases |
| ShiftVectors.TableUpCascade | game/board_test.go:146-160 | the second further Up case |
| ShiftVectors.TableUpMixed | game/board_test.go:161-175 | the third further Up case |
| ShiftVectors.RightMergesTwice | game/board.go:55-84 | row 2 2 0 4 shifted Right gives 0 0 0 8: the merged 4 slides out of its frozen cell and merges again in the same shift |
| ShiftVectors.RightKeepsLateTwo | game/board.go:55-84 | row 2 2 2 0 shifted Right gives 0 0 4 2: the row-major scan merges the two leftmost 2s before the third has moved |
| ShiftVectors.FourTwoTwoLeft | game/board.go:76-80 | row 4 2 2 0 shifted Left gives 4 4 0 0: the new 4 sits in a frozen cell and does not merge again (the input on which the legacy engine gives 8 0 0 0) |
| LegacyBoard.LNeighbour | board.go:58-63 | the neighbour passes exactly when both coordinates are in 0..BoardSide (4 included), and its index is i + dy·4 + dx, which may be 16 or more |
| LegacyBoard.LStep | board.go:52-76 | a step panics exactly when a non-empty cell's neighbour passes the `> BoardSide` test with an index of 16 or more; the panic index is that neighbour and nothing has been written |
| LegacyBoard.LScan | board.go:51-77 | the outcome once the inner loop has visited cells 0..i-1; a panic is always on an index of 16 or more |
| LegacyBoard.LPasses | board.go:50-78 | the outcome after p runs of the outer loop; a panic is always on an index of 16 or more |
| LegacyBoard.LShiftGrid | board.go:44-83 | a shift that completes ends with the freeze map cleared; a panic is on an index of 16 or more |
| LegacyBoard.Board.constructor | board.go:19-22 | the zero Board |
| LegacyBoard.Board.Get | board.go:24-26 | reads raw[y·4+x] |
| LegacyBoard.Board.Set | board.go:28-30 | writes raw[y·4+x] and no other cell |
| LegacyBoard.Board.Freeze | board.go:32-34 | sets freeze[y·4+x] and no other bit |
| LegacyBoard.Board.IsFrozen | board.go:36-38 | reads freeze[y·4+x] |
| LegacyBoard.Board.ClearFreeze | board.go:40-42 | every freeze bit is false afterwards |
| LegacyBoard.Board.Shift | board.go:44-83 | returns what LShiftGrid returns, or panics on the index where LShiftGrid panics, leaving the board LShiftGrid leaves |
| LegacyBoard.Board.ShiftCell | board.go:52-76 | one inner-loop iteration, including the out-of-range read of line 65, changes the arrays as LStep does |
| LegacyBoard.LegacyNeighbours | board.go:56-63 | Right always reaches i+1 (wrapping into the next row, or past the array); Down always reaches i+4; Left and Up stop at their edges |
| LegacyBoard.RightWrapsRow | board.go:60-63 | a Right move from the last column lands on the first cell of the next row |
| LegacyBoard.LeftUpNeverPanic | board.go:56-76 | Left and Up shifts never leave the array |
| LegacyBoard.RightDownPanic | board.go:60-65 | a Right or Down shift panics exactly when the board holds a tile |
| LegacyBoard.LegacyKeepsSum | board.go:67-76 | the legacy shift keeps the sum of the tiles, also in the board a panic leaves behind |
| LegacyBoard.LegacyUnmovedUnchanged | board.go:44-83 | a completed shift that returns false leaves the tiles unchanged, and a completed shift clears the freeze map |
| LegacyBoard.MergeFreezesSourceOnly | board.go:71-76 | a legacy merge doubles the target and freezes the source, but not the target |
| LegacyBoard.RowMergesTwiceLeft | board.go:71-76 | the whole legacy shift of the top row 4 2 2 0 to the Left returns true and leaves 8 0 0 0 |
| LegacyBoard.MergedTileMergesAgain | board.go:71-76 | 2c c c shifted Left: the merged 2c at cell 1 then merges into cell 0, giving 4c |
| GameApi.FirstShiftable | ai/naive.go:46-71 | what the chain of CanShift tests finds is in the order and shiftable |
| GameApi.FirstShiftableSpec | ai/naive.go:46-71 | nothing is found exactly when no direction is shiftable; what is found comes after unshiftable directions only |
| GameApi.LastShiftable | ai/hungry.go:38-46 | what the loop keeps as `available` is in the list and shiftable |
| GameApi.LastShiftableSpec | ai/hungry.go:38-46 | nothing is found exactly when no direction is shiftable; what is found is followed by unshiftable directions only |
| NaiveAI.Preference | ai/naive.go:46-68 | the preference order holds all four directions: Up then Left, or Left then Up, as `nextIsUp` says, then Down, then Right |
| NaiveAI.Toggle | ai/naive.go:31-35 | `nextIsUp` flips from true to false exactly on an Up move, and from false to true exactly on a Left move |
| NaiveAI.Naive.constructor | ai/naive.go:16-21 | a new Naive player prefers Up first |
| NaiveAI.Naive.FindBest | ai/naive.go:46-71 | the first shiftable direction in the preference order; the error exactly when no direction can shift |
| NaiveAI.Naive.SolveStep | ai/naive.go:24-43 | a loop iteration ends the loop when no moves are left, returns FindBest's error, or toggles `nextIsUp` and then shifts (a failed shift keeps the toggle) |
| NaiveAI.PreferenceWalk | ai/naive.go:47-68 | the order-based search is the if-chain of the Go code |
| NaiveAI.DownBeforeRight | ai/naive.go:63-68 | Down is chosen only when Up and Left cannot shift; Right only when no other direction can |
| NaiveAI.AlternatesUpAndLeft | ai/naive.go:31-53 | while Up and Left can both shift, the player picks the preferred one and the preference flips |
| HungryAI.Chosen | ai/hungry.go:32-54 | when some direction can shift: a shiftable direction of the list after which no listed direction can shift; otherwise DirRight (code 0) |
| HungryAI.FindBest | ai/hungry.go:32-54 | the loop returns Chosen, whatever the scores, and never an error |
| HungryAI.SolveStep | ai/hungry.go:16-29 | a loop iteration ends the loop when no moves are left, otherwise shifts Chosen and reports the shift's error |

## Left out

- `String`, `Collate` (an empty loop) and `main.go`: output and program wiring, not part of the engine.
- The random source: `PlaceRandom` takes the value of `rand.Int()` as `pick` and the value of `rand.Intn(100)` as `roll`.
- `CanShift`, `HasMovesLeft`, `Directions` and the error-returning `Shift` that the players call belong to a `game/board.go` that is not part of this model; their answers are parameters of the player operations.
- GameBoard.Board.Get: requires y·4+x in 0..15, the index Go's array bounds check accepts (an off-board pair such as (4, 0) is admitted, as in Go); Go panics on an index outside the array, and that panic is not modelled (Shift never passes such an index).
- GameBoard.Board.Set: requires y·4+x in 0..15, the index Go's array bounds check accepts (an off-board pair such as (4, 0) is admitted, as in Go); Go panics on an index outside the array, and that panic is not modelled (Shift never passes such an index).
- GameBoard.Board.Freeze: requires y·4+x in 0..15, the index Go's array bounds check accepts (an off-board pair such as (4, 0) is admitted, as in Go); Go panics on an index outside the array, and that panic is not modelled (Shift never passes such an index).
- GameBoard.Board.IsFrozen: requires y·4+x in 0..15, the index Go's array bounds check accepts (an off-board pair such as (4, 0) is admitted, as in Go); Go panics on an index outside the array, and that panic is not modelled (Shift never passes such an index).
- LegacyBoard.Board.Get: requires an index inside the array; Go panics outside it, and that panic is not modelled here (the one out-of-range read the legacy Shift makes is modelled in ShiftCell as a panic outcome).
- LegacyBoard.Board.Set: requires an index inside the array; Go panics outside it, and that panic is not modelled here (the one out-of-range read the legacy Shift makes is modelled in ShiftCell as a panic outcome).
- LegacyBoard.Board.Freeze: requires an index inside the array; Go panics outside it, and that panic is not modelled here (the one out-of-range read the legacy Shift makes is modelled in ShiftCell as a panic outcome).
- LegacyBoard.Board.IsFrozen: requires an index inside the array; Go panics outside it, and that panic is not modelled here (the one out-of-range read the legacy Shift makes is modelled in ShiftCell as a panic outcome).
- `DirNone` is not modelled as a direction; Naive's `FindBest` returns `None` where Go returns `(DirNone, error)`.
- NaiveAI.Naive.SolveStep: one iteration of `Solve`'s loop, not the whole loop, because whether the loop ends depends on the board operations that are not part of this model.
- HungryAI.SolveStep: one iteration of `Solve`'s loop, for the same reason.
- The `board` argument of Naive's `FindBest` is never read by the Go code, so it has no counterpart.
- A Go runtime panic is not modelled as an abort: the legacy engine returns it as an outcome (`Panic(index)`) with the board as the panic leaves it.
- Integer width: tiles are unbounded integers. Go's `int` is not modelled, because a sum-preserving shift on 16 cells of game-sized tiles stays far below its range.

## Findings

| source | as written | input that shows it | evidently intended | confidence | as-written member | corrected member |
|---|---|---|---|---|---|---|
| board.go:60-61 | the bounds test rejects a neighbour coordinate only when it is greater than BoardSide, so x + 1 = 4 and y + 1 = 4 pass | any board with a tile shifted Right or Down, e.g. a single 2 at (3, 3) shifted Right reads raw[16] and panics | reject a coordinate of BoardSide or more, as game/board.go:65-66 does | high; not executed | LegacyBoard.RightDownPanic | ShiftEngine.Neighbour |
| board.go:74 | a merge freezes only its source cell, so the merged tile can merge again in the same shift | row 4 2 2 0 shifted Left becomes 8 0 0 0 instead of 4 4 0 0 | freeze the target cell too, as game/board.go:79-80 does | high; not executed | LegacyBoard.RowMergesTwiceLeft | ShiftProperties.MergedCellsNeverMergeAgain |
