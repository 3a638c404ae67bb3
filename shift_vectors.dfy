/** The literal expectations of game/board_test.go, and three traced cases
    (two Right shifts and one Left shift), proved through line independence: each row (Left,
    Right) or column (Up, Down) of the expected board is computed by the
    four-cell engine of Lines. */
module ShiftVectors {
  import opened Geometry
  import opened ShiftEngine
  import opened Lines
  import opened LineVectors

  /** An empty board stays empty (first table case). */
  lemma AllZeroUp()
    ensures Shifted(Columns([0, 0, 0, 0], [0, 0, 0, 0], [0, 0, 0, 0], [0, 0, 0, 0]), Up).tiles == Columns([0, 0, 0, 0], [0, 0, 0, 0], [0, 0, 0, 0], [0, 0, 0, 0])
  {
    Back0x0x0x0();
    ShiftColumns(Up, -1, [0, 0, 0, 0], [0, 0, 0, 0], [0, 0, 0, 0], [0, 0, 0, 0], [0, 0, 0, 0], [0, 0, 0, 0], [0, 0, 0, 0], [0, 0, 0, 0]);
  }

  /** Row 0 2 0 2 shifted Left gives 4 0 0 0 (TestSparse). */
  lemma SparseLeft()
    ensures Shifted(Rows([0, 2, 0, 2], [0, 0, 0, 0], [0, 0, 0, 0], [0, 0, 0, 0]), Left).tiles == Rows([4, 0, 0, 0], [0, 0, 0, 0], [0, 0, 0, 0], [0, 0, 0, 0])
  {
    Back0x2x0x2();
    Back0x0x0x0();
    ShiftRows(Left, -1, [0, 2, 0, 2], [0, 0, 0, 0], [0, 0, 0, 0], [0, 0, 0, 0], [4, 0, 0, 0], [0, 0, 0, 0], [0, 0, 0, 0], [0, 0, 0, 0]);
  }

  /** Column 2 2 2 2 shifted Up gives 4 4 0 0: the two 4s do not merge again (TestNoRemerge, first shift). */
  lemma NoRemergeUp()
    ensures Shifted(Columns([2, 2, 2, 2], [0, 0, 0, 0], [0, 0, 0, 0], [0, 0, 0, 0]), Up).tiles == Columns([4, 4, 0, 0], [0, 0, 0, 0], [0, 0, 0, 0], [0, 0, 0, 0])
  {
    Back2x2x2x2();
    Back0x0x0x0();
    ShiftColumns(Up, -1, [2, 2, 2, 2], [0, 0, 0, 0], [0, 0, 0, 0], [0, 0, 0, 0], [4, 4, 0, 0], [0, 0, 0, 0], [0, 0, 0, 0], [0, 0, 0, 0]);
  }

  /** A second Up on the column 4 4 0 0 puts 8 on top (TestNoRemerge, second shift). */
  lemma NoRemergeUpAgain()
    ensures Shifted(Columns([4, 4, 0, 0], [0, 0, 0, 0], [0, 0, 0, 0], [0, 0, 0, 0]), Up).tiles == Columns([8, 0, 0, 0], [0, 0, 0, 0], [0, 0, 0, 0], [0, 0, 0, 0])
  {
    Back4x4x0x0();
    Back0x0x0x0();
    ShiftColumns(Up, -1, [4, 4, 0, 0], [0, 0, 0, 0], [0, 0, 0, 0], [0, 0, 0, 0], [8, 0, 0, 0], [0, 0, 0, 0], [0, 0, 0, 0], [0, 0, 0, 0]);
  }

  /** Second table case: a mixed board shifted Left. */
  lemma TableLeft()
    ensures Shifted(Rows([2, 2, 2, 2], [4, 0, 4, 0], [0, 8, 0, 8], [2, 4, 8, 16]), Left).tiles == Rows([4, 4, 0, 0], [8, 0, 0, 0], [16, 0, 0, 0], [2, 4, 8, 16])
  {
    Back2x2x2x2();
    Back4x0x4x0();
    Back0x8x0x8();
    Back2x4x8x16();
    ShiftRows(Left, -1, [2, 2, 2, 2], [4, 0, 4, 0], [0, 8, 0, 8], [2, 4, 8, 16], [4, 4, 0, 0], [8, 0, 0, 0], [16, 0, 0, 0], [2, 4, 8, 16]);
  }

  /** Third table case: the same board shifted Down. */
  lemma TableDown()
    ensures Shifted(Columns([2, 4, 0, 2], [2, 0, 8, 4], [2, 4, 0, 8], [2, 0, 8, 16]), Down).tiles == Columns([0, 2, 4, 2], [0, 2, 8, 4], [0, 2, 4, 8], [0, 2, 8, 16])
  {
    Towards2x4x0x2();
    Towards2x0x8x4();
    Towards2x4x0x8();
    Towards2x0x8x16();
    ShiftColumns(Down, 1, [2, 4, 0, 2], [2, 0, 8, 4], [2, 4, 0, 8], [2, 0, 8, 16], [0, 2, 4, 2], [0, 2, 8, 4], [0, 2, 4, 8], [0, 2, 8, 16]);
  }

  /** Fourth table case: a board of 2s shifted Right gives columns 0 0 4 4. */
  lemma TableRight()
    ensures Shifted(Rows([2, 2, 2, 2], [2, 2, 2, 2], [2, 2, 2, 2], [2, 2, 2, 2]), Right).tiles == Rows([0, 0, 4, 4], [0, 0, 4, 4], [0, 0, 4, 4], [0, 0, 4, 4])
  {
    Towards2x2x2x2();
    ShiftRows(Right, 1, [2, 2, 2, 2], [2, 2, 2, 2], [2, 2, 2, 2], [2, 2, 2, 2], [0, 0, 4, 4], [0, 0, 4, 4], [0, 0, 4, 4], [0, 0, 4, 4]);
  }

  /** Fifth table case: the column 8 4 4 shifted Up gives 8 8, not 16. */
  lemma TableUpStopsAtEight()
    ensures Shifted(Columns([8, 4, 4, 0], [0, 0, 0, 0], [0, 0, 0, 0], [0, 0, 0, 0]), Up).tiles == Columns([8, 8, 0, 0], [0, 0, 0, 0], [0, 0, 0, 0], [0, 0, 0, 0])
  {
    Back8x4x4x0();
    Back0x0x0x0();
    ShiftColumns(Up, -1, [8, 4, 4, 0], [0, 0, 0, 0], [0, 0, 0, 0], [0, 0, 0, 0], [8, 8, 0, 0], [0, 0, 0, 0], [0, 0, 0, 0], [0, 0, 0, 0]);
  }

  /** Sixth table case: the column 16 8 4 4 shifted Up gives 16 8 8 0; the new 8 does not merge with the old one. */
  lemma TableUpCascade()
    ensures Shifted(Columns([16, 8, 4, 4], [0, 0, 0, 0], [0, 0, 0, 0], [0, 0, 0, 0]), Up).tiles == Columns([16, 8, 8, 0], [0, 0, 0, 0], [0, 0, 0, 0], [0, 0, 0, 0])
  {
    Back16x8x4x4();
    Back0x0x0x0();
    ShiftColumns(Up, -1, [16, 8, 4, 4], [0, 0, 0, 0], [0, 0, 0, 0], [0, 0, 0, 0], [16, 8, 8, 0], [0, 0, 0, 0], [0, 0, 0, 0], [0, 0, 0, 0]);
  }

  /** Seventh table case: slides over gaps and merges in three columns at once. */
  lemma TableUpMixed()
    ensures Shifted(Columns([16, 0, 8, 8], [0, 0, 0, 0], [0, 2, 0, 2], [0, 0, 2, 0]), Up).tiles == Columns([16, 16, 0, 0], [0, 0, 0, 0], [4, 0, 0, 0], [2, 0, 0, 0])
  {
    Back16x0x8x8();
    Back0x0x0x0();
    Back0x2x0x2();
    Back0x0x2x0();
    ShiftColumns(Up, -1, [16, 0, 8, 8], [0, 0, 0, 0], [0, 2, 0, 2], [0, 0, 2, 0], [16, 16, 0, 0], [0, 0, 0, 0], [4, 0, 0, 0], [2, 0, 0, 0]);
  }

  /** The row 2 2 0 4 shifted Right gives 0 0 0 8: the merged 4 leaves its frozen cell by sliding and merges again within the same shift. */
  lemma RightMergesTwice()
    ensures Shifted(Rows([2, 2, 0, 4], [0, 0, 0, 0], [0, 0, 0, 0], [0, 0, 0, 0]), Right).tiles == Rows([0, 0, 0, 8], [0, 0, 0, 0], [0, 0, 0, 0], [0, 0, 0, 0])
  {
    Towards2x2x0x4();
    Towards0x0x0x0();
    ShiftRows(Right, 1, [2, 2, 0, 4], [0, 0, 0, 0], [0, 0, 0, 0], [0, 0, 0, 0], [0, 0, 0, 8], [0, 0, 0, 0], [0, 0, 0, 0], [0, 0, 0, 0]);
  }

  /** The row 2 2 2 0 shifted Right gives 0 0 4 2: the first two 2s merge before the third has slid, so the result is not 0 0 2 4. */
  lemma RightKeepsLateTwo()
    ensures Shifted(Rows([2, 2, 2, 0], [0, 0, 0, 0], [0, 0, 0, 0], [0, 0, 0, 0]), Right).tiles == Rows([0, 0, 4, 2], [0, 0, 0, 0], [0, 0, 0, 0], [0, 0, 0, 0])
  {
    Towards2x2x2x0();
    Towards0x0x0x0();
    ShiftRows(Right, 1, [2, 2, 2, 0], [0, 0, 0, 0], [0, 0, 0, 0], [0, 0, 0, 0], [0, 0, 4, 2], [0, 0, 0, 0], [0, 0, 0, 0], [0, 0, 0, 0]);
  }

  /** The row 4 2 2 0 shifted Left gives 4 4 0 0: the 4 made from the two
      2s lands in a frozen cell and does not merge with the 4 beside it. */
  lemma FourTwoTwoLeft()
    ensures Shifted(Rows([4, 2, 2, 0], [0, 0, 0, 0], [0, 0, 0, 0], [0, 0, 0, 0]), Left).tiles == Rows([4, 4, 0, 0], [0, 0, 0, 0], [0, 0, 0, 0], [0, 0, 0, 0])
  {
    Back4x2x2x0();
    Back0x0x0x0();
    ShiftRows(Left, -1, [4, 2, 2, 0], [0, 0, 0, 0], [0, 0, 0, 0], [0, 0, 0, 0], [4, 4, 0, 0], [0, 0, 0, 0], [0, 0, 0, 0], [0, 0, 0, 0]);
  }
}

/** The rows and columns of the boards in ShiftVectors, each shifted by the
    four-cell engine. Towards... lemmas move along increasing positions
    (Right, Down), Back... lemmas along decreasing ones (Left, Up); the
    intermediate states after the first three passes are written out. */
module LineVectors {
  import opened Lines

  lemma Back0x0x0x0()
    ensures LineShift([0, 0, 0, 0], -1) == [0, 0, 0, 0]
  {
    var l := Line([0, 0, 0, 0], [false, false, false, false]);
    assert LinePasses(l, -1, 1) == Line([0, 0, 0, 0], [false, false, false, false]);
    assert LinePasses(l, -1, 2) == Line([0, 0, 0, 0], [false, false, false, false]);
    assert LinePasses(l, -1, 3) == Line([0, 0, 0, 0], [false, false, false, false]);
  }

  lemma Back0x0x2x0()
    ensures LineShift([0, 0, 2, 0], -1) == [2, 0, 0, 0]
  {
    var l := Line([0, 0, 2, 0], [false, false, false, false]);
    assert LinePasses(l, -1, 1) == Line([0, 2, 0, 0], [false, false, false, false]);
    assert LinePasses(l, -1, 2) == Line([2, 0, 0, 0], [false, false, false, false]);
    assert LinePasses(l, -1, 3) == Line([2, 0, 0, 0], [false, false, false, false]);
  }

  lemma Back0x2x0x2()
    ensures LineShift([0, 2, 0, 2], -1) == [4, 0, 0, 0]
  {
    var l := Line([0, 2, 0, 2], [false, false, false, false]);
    assert LinePasses(l, -1, 1) == Line([2, 0, 2, 0], [false, false, false, false]);
    assert LinePasses(l, -1, 2) == Line([2, 2, 0, 0], [false, false, false, false]);
    assert LinePasses(l, -1, 3) == Line([4, 0, 0, 0], [true, true, false, false]);
  }

  lemma Back0x8x0x8()
    ensures LineShift([0, 8, 0, 8], -1) == [16, 0, 0, 0]
  {
    var l := Line([0, 8, 0, 8], [false, false, false, false]);
    assert LinePasses(l, -1, 1) == Line([8, 0, 8, 0], [false, false, false, false]);
    assert LinePasses(l, -1, 2) == Line([8, 8, 0, 0], [false, false, false, false]);
    assert LinePasses(l, -1, 3) == Line([16, 0, 0, 0], [true, true, false, false]);
  }

  lemma Back16x0x8x8()
    ensures LineShift([16, 0, 8, 8], -1) == [16, 16, 0, 0]
  {
    var l := Line([16, 0, 8, 8], [false, false, false, false]);
    assert LinePasses(l, -1, 1) == Line([16, 8, 8, 0], [false, false, false, false]);
    assert LinePasses(l, -1, 2) == Line([16, 16, 0, 0], [false, true, true, false]);
    assert LinePasses(l, -1, 3) == Line([16, 16, 0, 0], [false, true, true, false]);
  }

  lemma Back16x8x4x4()
    ensures LineShift([16, 8, 4, 4], -1) == [16, 8, 8, 0]
  {
    var l := Line([16, 8, 4, 4], [false, false, false, false]);
    assert LinePasses(l, -1, 1) == Line([16, 8, 8, 0], [false, false, true, true]);
    assert LinePasses(l, -1, 2) == Line([16, 8, 8, 0], [false, false, true, true]);
    assert LinePasses(l, -1, 3) == Line([16, 8, 8, 0], [false, false, true, true]);
  }

  lemma Back2x2x2x2()
    ensures LineShift([2, 2, 2, 2], -1) == [4, 4, 0, 0]
  {
    var l := Line([2, 2, 2, 2], [false, false, false, false]);
    assert LinePasses(l, -1, 1) == Line([4, 2, 2, 0], [true, true, false, false]);
    assert LinePasses(l, -1, 2) == Line([4, 4, 0, 0], [true, true, true, false]);
    assert LinePasses(l, -1, 3) == Line([4, 4, 0, 0], [true, true, true, false]);
  }

  lemma Back2x4x8x16()
    ensures LineShift([2, 4, 8, 16], -1) == [2, 4, 8, 16]
  {
    var l := Line([2, 4, 8, 16], [false, false, false, false]);
    assert LinePasses(l, -1, 1) == Line([2, 4, 8, 16], [false, false, false, false]);
    assert LinePasses(l, -1, 2) == Line([2, 4, 8, 16], [false, false, false, false]);
    assert LinePasses(l, -1, 3) == Line([2, 4, 8, 16], [false, false, false, false]);
  }

  lemma Back4x0x4x0()
    ensures LineShift([4, 0, 4, 0], -1) == [8, 0, 0, 0]
  {
    var l := Line([4, 0, 4, 0], [false, false, false, false]);
    assert LinePasses(l, -1, 1) == Line([4, 4, 0, 0], [false, false, false, false]);
    assert LinePasses(l, -1, 2) == Line([8, 0, 0, 0], [true, true, false, false]);
    assert LinePasses(l, -1, 3) == Line([8, 0, 0, 0], [true, true, false, false]);
  }

  lemma Back4x2x2x0()
    ensures LineShift([4, 2, 2, 0], -1) == [4, 4, 0, 0]
  {
    var l := Line([4, 2, 2, 0], [false, false, false, false]);
    assert LinePasses(l, -1, 1) == Line([4, 4, 0, 0], [false, true, true, false]);
    assert LinePasses(l, -1, 2) == Line([4, 4, 0, 0], [false, true, true, false]);
    assert LinePasses(l, -1, 3) == Line([4, 4, 0, 0], [false, true, true, false]);
  }

  lemma Back4x4x0x0()
    ensures LineShift([4, 4, 0, 0], -1) == [8, 0, 0, 0]
  {
    var l := Line([4, 4, 0, 0], [false, false, false, false]);
    assert LinePasses(l, -1, 1) == Line([8, 0, 0, 0], [true, true, false, false]);
    assert LinePasses(l, -1, 2) == Line([8, 0, 0, 0], [true, true, false, false]);
    assert LinePasses(l, -1, 3) == Line([8, 0, 0, 0], [true, true, false, false]);
  }

  lemma Back8x4x4x0()
    ensures LineShift([8, 4, 4, 0], -1) == [8, 8, 0, 0]
  {
    var l := Line([8, 4, 4, 0], [false, false, false, false]);
    assert LinePasses(l, -1, 1) == Line([8, 8, 0, 0], [false, true, true, false]);
    assert LinePasses(l, -1, 2) == Line([8, 8, 0, 0], [false, true, true, false]);
    assert LinePasses(l, -1, 3) == Line([8, 8, 0, 0], [false, true, true, false]);
  }

  lemma Towards0x0x0x0()
    ensures LineShift([0, 0, 0, 0], 1) == [0, 0, 0, 0]
  {
    var l := Line([0, 0, 0, 0], [false, false, false, false]);
    assert LinePasses(l, 1, 1) == Line([0, 0, 0, 0], [false, false, false, false]);
    assert LinePasses(l, 1, 2) == Line([0, 0, 0, 0], [false, false, false, false]);
    assert LinePasses(l, 1, 3) == Line([0, 0, 0, 0], [false, false, false, false]);
  }

  lemma Towards2x0x8x16()
    ensures LineShift([2, 0, 8, 16], 1) == [0, 2, 8, 16]
  {
    var l := Line([2, 0, 8, 16], [false, false, false, false]);
    assert LinePasses(l, 1, 1) == Line([0, 2, 8, 16], [false, false, false, false]);
    assert LinePasses(l, 1, 2) == Line([0, 2, 8, 16], [false, false, false, false]);
    assert LinePasses(l, 1, 3) == Line([0, 2, 8, 16], [false, false, false, false]);
  }

  lemma Towards2x0x8x4()
    ensures LineShift([2, 0, 8, 4], 1) == [0, 2, 8, 4]
  {
    var l := Line([2, 0, 8, 4], [false, false, false, false]);
    assert LinePasses(l, 1, 1) == Line([0, 2, 8, 4], [false, false, false, false]);
    assert LinePasses(l, 1, 2) == Line([0, 2, 8, 4], [false, false, false, false]);
    assert LinePasses(l, 1, 3) == Line([0, 2, 8, 4], [false, false, false, false]);
  }

  lemma Towards2x2x0x4()
    ensures LineShift([2, 2, 0, 4], 1) == [0, 0, 0, 8]
  {
    var l := Line([2, 2, 0, 4], [false, false, false, false]);
    assert LinePasses(l, 1, 1) == Line([0, 0, 0, 8], [true, true, true, true]);
    assert LinePasses(l, 1, 2) == Line([0, 0, 0, 8], [true, true, true, true]);
    assert LinePasses(l, 1, 3) == Line([0, 0, 0, 8], [true, true, true, true]);
  }

  lemma Towards2x2x2x0()
    ensures LineShift([2, 2, 2, 0], 1) == [0, 0, 4, 2]
  {
    var l := Line([2, 2, 2, 0], [false, false, false, false]);
    assert LinePasses(l, 1, 1) == Line([0, 4, 0, 2], [true, true, false, false]);
    assert LinePasses(l, 1, 2) == Line([0, 0, 4, 2], [true, true, false, false]);
    assert LinePasses(l, 1, 3) == Line([0, 0, 4, 2], [true, true, false, false]);
  }

  lemma Towards2x2x2x2()
    ensures LineShift([2, 2, 2, 2], 1) == [0, 0, 4, 4]
  {
    var l := Line([2, 2, 2, 2], [false, false, false, false]);
    assert LinePasses(l, 1, 1) == Line([0, 4, 0, 4], [true, true, true, true]);
    assert LinePasses(l, 1, 2) == Line([0, 0, 4, 4], [true, true, true, true]);
    assert LinePasses(l, 1, 3) == Line([0, 0, 4, 4], [true, true, true, true]);
  }

  lemma Towards2x4x0x2()
    ensures LineShift([2, 4, 0, 2], 1) == [0, 2, 4, 2]
  {
    var l := Line([2, 4, 0, 2], [false, false, false, false]);
    assert LinePasses(l, 1, 1) == Line([2, 0, 4, 2], [false, false, false, false]);
    assert LinePasses(l, 1, 2) == Line([0, 2, 4, 2], [false, false, false, false]);
    assert LinePasses(l, 1, 3) == Line([0, 2, 4, 2], [false, false, false, false]);
  }

  lemma Towards2x4x0x8()
    ensures LineShift([2, 4, 0, 8], 1) == [0, 2, 4, 8]
  {
    var l := Line([2, 4, 0, 8], [false, false, false, false]);
    var settled := Line([0, 2, 4, 8], [false, false, false, false]);
    assert LinePasses(l, 1, 1) == Line([2, 0, 4, 8], [false, false, false, false]);
    assert LinePasses(l, 1, 2) == settled;
    assert LineScan(settled, 1, 4) == settled;
    assert LinePasses(l, 1, 3) == settled;
  }
}
