/**
 * The post-fixer on the tables of the editing tests: each lemma states the repaired table the
 * test expects for the table it inserts. The walks of the rows are worked out row by row.
 */
module PostFixerCases {
  import opened Tables
  import opened Grid
  import opened PostFixer

  // ---------------------------------------------------------------------------------------------
  // Working out walks and repairs of small tables.

  /** The widths and overhangs of a two-row table whose walks are known. */
  lemma {:induction false} TwoRows(rows: seq<seq<Cell>>, l0: Placement, l1: Placement)
    requires |rows| == 2
    requires Layouts(rows)[0] == l0 && Layouts(rows)[1] == l1
    ensures RowWidths(rows) == [Width(l0), Width(l1)]
    ensures Overhangs(rows) == [Overhang(l0), Overhang(l1)]
  {
    var w := RowWidths(rows);
    assert w[0] == Width(l0) && w[1] == Width(l1);
    var o := Overhangs(rows);
    assert o[0] == Overhang(l0) && o[1] == Overhang(l1);
  }

  /** The widths and overhangs of a three-row table whose walks are known. */
  lemma {:induction false} ThreeRows(rows: seq<seq<Cell>>, l0: Placement, l1: Placement, l2: Placement)
    requires |rows| == 3
    requires Layouts(rows)[0] == l0 && Layouts(rows)[1] == l1 && Layouts(rows)[2] == l2
    ensures RowWidths(rows) == [Width(l0), Width(l1), Width(l2)]
    ensures Overhangs(rows) == [Overhang(l0), Overhang(l1), Overhang(l2)]
  {
    var w := RowWidths(rows);
    assert w[0] == Width(l0) && w[1] == Width(l1) && w[2] == Width(l2);
    var o := Overhangs(rows);
    assert o[0] == Overhang(l0) && o[1] == Overhang(l1) && o[2] == Overhang(l2);
  }

  /** The first row is walked with nothing carried into it. */
  lemma {:induction false} FirstRow(rows: seq<seq<Cell>>)
    requires |rows| > 0
    ensures Layouts(rows)[0] == Place(0, rows[0], {}, 0)
  {
    LayoutAt(rows, 0);
    assert CarriedInto(Layouts(rows)[..0], 0) == {};
  }

  /** The second row is walked with what the first row's slots carry into it. */
  lemma {:induction false} SecondRow(rows: seq<seq<Cell>>)
    requires |rows| > 1
    ensures Layouts(rows)[1] == Place(1, rows[1], CarriedByRow(Layouts(rows)[0].slots, 1), 0)
  {
    LayoutAt(rows, 1);
    var ls := Layouts(rows)[..1];
    assert ls[..0] == [];
    assert ls[0] == Layouts(rows)[0];
    assert CarriedInto(ls[..0], 1) == {};
    assert CarriedInto(ls, 1) == CarriedInto(ls[..0], 1) + CarriedByRow(ls[0].slots, 1);
    assert CarriedInto(ls, 1) == CarriedByRow(Layouts(rows)[0].slots, 1);
    assert Layouts(rows)[1] == Place(1, rows[1], CarriedInto(ls, 1), 0);
  }

  /** The third row is walked with what the slots of the first two rows carry into it. */
  lemma {:induction false} ThirdRow(rows: seq<seq<Cell>>)
    requires |rows| > 2
    ensures Layouts(rows)[2] ==
      Place(2, rows[2], CarriedByRow(Layouts(rows)[0].slots, 2) + CarriedByRow(Layouts(rows)[1].slots, 2), 0)
  {
    LayoutAt(rows, 2);
    var ls := Layouts(rows)[..2];
    assert ls[..1][..0] == [];
    assert ls[0] == Layouts(rows)[0] && ls[1] == Layouts(rows)[1];
    assert CarriedInto(ls[..1][..0], 2) == {};
    assert CarriedInto(ls[..1], 2) == CarriedInto(ls[..1][..0], 2) + CarriedByRow(ls[0].slots, 2);
    assert CarriedInto(ls, 2) == CarriedInto(ls[..1], 2) + CarriedByRow(ls[1].slots, 2);
    assert CarriedInto(ls, 2) == CarriedByRow(Layouts(rows)[0].slots, 2) + CarriedByRow(Layouts(rows)[1].slots, 2);
    assert Layouts(rows)[2] == Place(2, rows[2], CarriedInto(ls, 2), 0);
  }

  /** The fourth row is walked with what the slots of the first three rows carry into it. */
  lemma {:induction false} FourthRow(rows: seq<seq<Cell>>)
    requires |rows| > 3
    ensures Layouts(rows)[3] ==
      Place(3, rows[3], CarriedByRow(Layouts(rows)[0].slots, 3) + CarriedByRow(Layouts(rows)[1].slots, 3)
                        + CarriedByRow(Layouts(rows)[2].slots, 3), 0)
  {
    LayoutAt(rows, 3);
    var ls := Layouts(rows)[..3];
    assert ls[..1][..0] == [] && ls[..2][..1] == ls[..1] && ls[..3] == ls;
    assert ls[0] == Layouts(rows)[0] && ls[1] == Layouts(rows)[1] && ls[2] == Layouts(rows)[2];
    assert CarriedInto(ls[..1][..0], 3) == {};
    assert CarriedInto(ls[..1], 3) == CarriedInto(ls[..1][..0], 3) + CarriedByRow(ls[0].slots, 3);
    assert CarriedInto(ls[..2], 3) == CarriedInto(ls[..2][..1], 3) + CarriedByRow(ls[1].slots, 3);
    assert CarriedInto(ls, 3) == CarriedInto(ls[..2], 3) + CarriedByRow(ls[2].slots, 3);
    assert CarriedInto(ls, 3) == CarriedByRow(Layouts(rows)[0].slots, 3) + CarriedByRow(Layouts(rows)[1].slots, 3)
                                 + CarriedByRow(Layouts(rows)[2].slots, 3);
    assert Layouts(rows)[3] == Place(3, rows[3], CarriedInto(ls, 3), 0);
  }

  /**
   * A walk whose taken columns are exactly the columns from its cursor up to `n`, and others
   * before the cursor, is `n` wide and has no overhang.
   */
  lemma {:induction false} Flush(p: Placement, n: nat)
    requires p.next <= n
    requires forall x :: p.next <= x < n ==> x in p.taken
    requires forall x :: x in p.taken ==> x < n
    ensures Width(p) == n && Overhang(p) == 0
  {
    SkipAt(p.taken, p.next, n);
    assert AtOrAfter(p.taken, n) == {};
  }

  /** `ks[r]` is what `ws[r]` lacks of the largest of `ws`. */
  predicate Gaps(ws: seq<nat>, ks: seq<nat>)
  {
    |ks| == |ws| && forall r :: 0 <= r < |ws| ==> ws[r] + ks[r] == MaxOf(ws)
  }

  /** Padding by the differences to the largest of known widths. */
  lemma {:induction false} PaddedBy(t: Table, ws: seq<nat>, ks: seq<nat>)
    requires RowWidths(t.rows) == ws && Gaps(ws, ks)
    ensures PadRows(t) == t.(rows := Extend(t.rows, ks))
  {
    var sk := Shortfalls(t.rows);
    assert forall r :: 0 <= r < |ws| ==> sk[r] == ks[r];
    assert sk == ks;
  }

  /**
   * A table whose rowspans fit, whose widths are known and in which no row has columns carried
   * past its end is repaired by one padding pass.
   */
  lemma {:induction false} WalkedCase(t: Table, ws: seq<nat>, ks: seq<nat>, e: Table)
    requires RowspansFit(t) && Measure(t) == 0
    requires RowWidths(t.rows) == ws && Gaps(ws, ks)
    requires e == t.(rows := Extend(t.rows, ks))
    ensures Repaired(t) == e
  {
    NoOverhangRepair(t);
    PaddedBy(t, ws, ks);
  }

  /** The trimming of a three-row table, given row by row. */
  lemma {:induction false} ClampThree(t: Table, out: seq<seq<Cell>>)
    requires |t.rows| == 3 && |out| == 3
    requires out[0] == TrimmedRow(t.rows[0], 0, RowLimit(t, 0))
    requires out[1] == TrimmedRow(t.rows[1], 1, RowLimit(t, 1))
    requires out[2] == TrimmedRow(t.rows[2], 2, RowLimit(t, 2))
    ensures ClampRowspans(t) == t.(rows := out)
  {
    var c := ClampRowspans(t);
    assert c.rows[0] == out[0] && c.rows[1] == out[1] && c.rows[2] == out[2];
  }

  /** A table whose trimmed form has rows of one width `n` is repaired by the trimming alone. */
  lemma {:induction false} EvenCase(t: Table, c: Table, n: nat)
    requires ClampRowspans(t) == c
    requires |c.rows| > 0 && forall r :: 0 <= r < |c.rows| ==> RowWidths(c.rows)[r] == n
    ensures Repaired(t) == c
  {
    assert RowWidths(c.rows)[0] == n;
    assert TableWidth(c.rows) == n;
    assert EqualWidths(c);
    RepairedKeepsValid(c);
    ClampRowspansChanges(c);
  }

  /** Three rows extended by known counts. */
  lemma {:induction false} ExtendThree(rows: seq<seq<Cell>>, ks: seq<nat>, out: seq<seq<Cell>>)
    requires |rows| == 3 && |ks| == 3 && |out| == 3
    requires out[0] == rows[0] + Empties(ks[0]) && out[1] == rows[1] + Empties(ks[1]) && out[2] == rows[2] + Empties(ks[2])
    ensures Extend(rows, ks) == out
  {
    var e := Extend(rows, ks);
    assert e[0] == out[0] && e[1] == out[1] && e[2] == out[2];
  }

  /**
   * A table without rowspans is repaired by padding each row by the difference between the
   * largest colspan sum and its own.
   */
  lemma {:induction false} SingleRowCase(t: Table, ws: seq<nat>, ks: seq<nat>)
    requires SingleRowCells(t.rows)
    requires |ws| == |t.rows| && Gaps(ws, ks)
    requires forall r :: 0 <= r < |ws| ==> ColspanSum(t.rows[r]) == ws[r]
    ensures Repaired(t) == t.(rows := Extend(t.rows, ks))
  {
    SingleRowRepair(t);
    SingleRowWidths(t, ws);
    PaddedBy(t, ws, ks);
  }

  /** Without rowspans the widths are the colspan sums. */
  lemma {:induction false} SingleRowWidths(t: Table, ws: seq<nat>)
    requires SingleRowCells(t.rows)
    requires |ws| == |t.rows|
    requires forall r :: 0 <= r < |ws| ==> ColspanSum(t.rows[r]) == ws[r]
    ensures RowWidths(t.rows) == ws
  {
    SingleRowLayouts(t.rows);
    var w := RowWidths(t.rows);
    assert forall r :: 0 <= r < |ws| ==> w[r] == ws[r];
  }

  // ---------------------------------------------------------------------------------------------
  // tests/tableediting.js:371-388: rows shorter than the longest one are padded.

  const ShortRows: Table := Table([[Plain("00")], [Plain("10"), Plain("11"), Plain("12")], [Plain("20"), Plain("21")]], 0, 0)

  const ShortRowsFixed: Table := Table([
    [Plain("00"), EmptyCell, EmptyCell],
    [Plain("10"), Plain("11"), Plain("12")],
    [Plain("20"), Plain("21"), EmptyCell]], 0, 0)

  lemma ShortRowsSums()
    ensures SingleRowCells(ShortRows.rows)
    ensures ColspanSum(ShortRows.rows[0]) == 1 && ColspanSum(ShortRows.rows[1]) == 3 && ColspanSum(ShortRows.rows[2]) == 2
  {
    assert ShortRows.rows[1][1..][1..][1..] == [];
    assert ShortRows.rows[2][1..][1..] == [];
  }

  /** The first and the last row get the empty cells they lack. */
  lemma ShortRowsRepaired()
    ensures Repaired(ShortRows) == ShortRowsFixed
  {
    ShortRowsSums();
    assert Gaps([1, 3, 2], [2, 0, 1]) by {
      assert MaxOf([1, 3, 2]) == 3;
    }
    SingleRowCase(ShortRows, [1, 3, 2], [2, 0, 1]);
    ShortRowsExtend();
  }

  lemma ShortRowsExtend() ensures Extend(ShortRows.rows, [2, 0, 1]) == ShortRowsFixed.rows
  {
    assert Empties(2) == [EmptyCell, EmptyCell] && Empties(1) == [EmptyCell] && Empties(0) == [];
    ExtendThree(ShortRows.rows, [2, 0, 1], ShortRowsFixed.rows);
  }

  // ---------------------------------------------------------------------------------------------
  // tests/tableediting.js:390-407: a cell spanning two rows takes a column of the row below.

  const Spanned1: Table := Table([
    [Plain("00"), Cell(2, 1, "10")],
    [Plain("10"), Cell(1, 2, "12")],
    [Plain("20"), Plain("21")]], 0, 0)

  const Spanned1Fixed: Table := Table([
    [Plain("00"), Cell(2, 1, "10"), EmptyCell, EmptyCell],
    [Plain("10"), Cell(1, 2, "12")],
    [Plain("20"), Plain("21"), EmptyCell, EmptyCell]], 0, 0)

  const S1L0 := Placement([Slot(0, 0, 1, 1), Slot(0, 1, 2, 1)], {0, 1}, 2)
  const S1L1 := Placement([Slot(1, 0, 1, 1), Slot(1, 2, 1, 2)], {0, 1, 2, 3}, 3)
  const S1L2 := Placement([Slot(2, 0, 1, 1), Slot(2, 1, 1, 1)], {0, 1}, 2)

  lemma S1Place0() ensures Place(0, Spanned1.rows[0], {}, 0) == S1L0
  {
    var row := Spanned1.rows[0];
    assert Skip({0}, 1) == 1;
    assert {0} + Columns(1, 1) == {0, 1};
    assert row[1..] == [Cell(2, 1, "10")] && row[1..][1..] == [];
    assert Place(0, row[1..], {0}, 1) == Placement([Slot(0, 1, 2, 1)], {0, 1}, 2);
    assert Skip({}, 0) == 0;
    assert {} + Columns(0, 1) == {0};
  }

  lemma S1Place1() ensures Place(1, Spanned1.rows[1], {1}, 0) == S1L1
  {
    var row := Spanned1.rows[1];
    assert Skip({0, 1}, 1) == 2;
    assert {0, 1} + Columns(2, 2) == {0, 1, 2, 3};
    assert row[1..] == [Cell(1, 2, "12")] && row[1..][1..] == [];
    assert Place(1, row[1..], {0, 1}, 1) == Placement([Slot(1, 2, 1, 2)], {0, 1, 2, 3}, 3);
    assert Skip({1}, 0) == 0;
    assert {1} + Columns(0, 1) == {0, 1};
  }

  lemma S1Place2() ensures Place(2, Spanned1.rows[2], {}, 0) == S1L2
  {
    var row := Spanned1.rows[2];
    assert Skip({0}, 1) == 1;
    assert {0} + Columns(1, 1) == {0, 1};
    assert row[1..] == [Plain("21")] && row[1..][1..] == [];
    assert Place(2, row[1..], {0}, 1) == Placement([Slot(2, 1, 1, 1)], {0, 1}, 2);
    assert Skip({}, 0) == 0;
    assert {} + Columns(0, 1) == {0};
  }

  lemma S1Carried()
    ensures CarriedByRow(S1L0.slots, 1) == {1}
    ensures CarriedByRow(S1L0.slots, 2) + CarriedByRow(S1L1.slots, 2) == {}
  {
    assert S1L0.slots[1..][1..] == [] && S1L1.slots[1..][1..] == [];
    assert Columns(1, 1) == {1};
  }

  lemma S1Layouts()
    ensures Layouts(Spanned1.rows)[0] == S1L0 && Layouts(Spanned1.rows)[1] == S1L1 && Layouts(Spanned1.rows)[2] == S1L2
  {
    FirstRow(Spanned1.rows);
    S1Place0();
    SecondRow(Spanned1.rows);
    S1Carried();
    S1Place1();
    ThirdRow(Spanned1.rows);
    S1Place2();
  }

  lemma S1Flush()
    ensures Width(S1L0) == 2 && Overhang(S1L0) == 0
    ensures Width(S1L1) == 4 && Overhang(S1L1) == 0
    ensures Width(S1L2) == 2 && Overhang(S1L2) == 0
  {
    Flush(S1L0, 2);
    Flush(S1L1, 4);
    Flush(S1L2, 2);
  }

  lemma S1Widths()
    ensures RowWidths(Spanned1.rows) == [2, 4, 2]
    ensures Overhangs(Spanned1.rows) == [0, 0, 0]
  {
    S1Layouts();
    ThreeRows(Spanned1.rows, S1L0, S1L1, S1L2);
    S1Flush();
  }

  lemma S1Gaps() ensures Gaps([2, 4, 2], [2, 0, 2])
  {
    assert MaxOf([2, 4, 2]) == 4;
  }

  lemma S1Flat() ensures Measure(Spanned1) == 0
  {
    S1Widths();
    assert Sum([0, 0, 0]) == 0;
  }

  lemma S1Extend() ensures Extend(Spanned1.rows, [2, 0, 2]) == Spanned1Fixed.rows
  {
    assert Empties(0) == [] && Empties(2) == [EmptyCell, EmptyCell];
    ExtendThree(Spanned1.rows, [2, 0, 2], Spanned1Fixed.rows);
  }

  lemma S1Fits() ensures RowspansFit(Spanned1)
  {
  }

  /** The cell under the two-row cell starts after it; the first and last rows are padded to four columns. */
  lemma Spanned1Repaired()
    ensures Repaired(Spanned1) == Spanned1Fixed
  {
    S1Fits();
    S1Flat();
    S1Widths();
    S1Gaps();
    S1Extend();
    WalkedCase(Spanned1, [2, 4, 2], [2, 0, 2], Spanned1Fixed);
  }

  // ---------------------------------------------------------------------------------------------
  // tests/tableediting.js:409-426: a wide first row, and a two-row cell in the second.

  const Spanned2: Table := Table([
    [Cell(1, 6, "00")],
    [Cell(2, 1, "10"), Plain("11"), Cell(1, 3, "12")],
    [Plain("21"), Plain("22")]], 0, 0)

  const Spanned2Fixed: Table := Table([
    [Cell(1, 6, "00")],
    [Cell(2, 1, "10"), Plain("11"), Cell(1, 3, "12"), EmptyCell],
    [Plain("21"), Plain("22"), EmptyCell, EmptyCell, EmptyCell]], 0, 0)

  const S2L0 := Placement([Slot(0, 0, 1, 6)], {0, 1, 2, 3, 4, 5}, 1)
  const S2L1 := Placement([Slot(1, 0, 2, 1), Slot(1, 1, 1, 1), Slot(1, 2, 1, 3)], {0, 1, 2, 3, 4}, 3)
  const S2L2 := Placement([Slot(2, 1, 1, 1), Slot(2, 2, 1, 1)], {0, 1, 2}, 3)

  lemma S2Place0() ensures Place(0, Spanned2.rows[0], {}, 0) == S2L0
  {
    assert Skip({}, 0) == 0;
    assert {} + Columns(0, 6) == {0, 1, 2, 3, 4, 5};
    assert Spanned2.rows[0][1..] == [];
  }

  lemma S2Place1() ensures Place(1, Spanned2.rows[1], {}, 0) == S2L1
  {
    var row := Spanned2.rows[1];
    assert Skip({0, 1}, 2) == 2;
    assert {0, 1} + Columns(2, 3) == {0, 1, 2, 3, 4};
    assert Place(1, [Cell(1, 3, "12")], {0, 1}, 2) == Placement([Slot(1, 2, 1, 3)], {0, 1, 2, 3, 4}, 3);
    assert Skip({0}, 1) == 1;
    assert {0} + Columns(1, 1) == {0, 1};
    assert row[1..] == [Plain("11"), Cell(1, 3, "12")];
    assert [Plain("11"), Cell(1, 3, "12")][1..] == [Cell(1, 3, "12")];
    assert Place(1, row[1..], {0}, 1) == Placement([Slot(1, 1, 1, 1), Slot(1, 2, 1, 3)], {0, 1, 2, 3, 4}, 3);
    assert Skip({}, 0) == 0;
    assert {} + Columns(0, 1) == {0};
  }

  lemma S2Place2() ensures Place(2, Spanned2.rows[2], {0}, 0) == S2L2
  {
    var row := Spanned2.rows[2];
    assert Skip({0, 1}, 2) == 2;
    assert {0, 1} + Columns(2, 1) == {0, 1, 2};
    assert row[1..] == [Plain("22")] && row[1..][1..] == [];
    assert Place(2, row[1..], {0, 1}, 2) == Placement([Slot(2, 2, 1, 1)], {0, 1, 2}, 3);
    assert Skip({0}, 0) == 1;
    assert {0} + Columns(1, 1) == {0, 1};
  }

  lemma S2Carried()
    ensures CarriedByRow(S2L0.slots, 1) == {}
    ensures CarriedByRow(S2L0.slots, 2) + CarriedByRow(S2L1.slots, 2) == {0}
  {
    assert S2L0.slots[1..] == [];
    assert S2L1.slots[1..][1..][1..] == [];
    assert Columns(0, 1) == {0};
  }

  lemma S2Layouts()
    ensures Layouts(Spanned2.rows)[0] == S2L0 && Layouts(Spanned2.rows)[1] == S2L1 && Layouts(Spanned2.rows)[2] == S2L2
  {
    FirstRow(Spanned2.rows);
    S2Place0();
    SecondRow(Spanned2.rows);
    S2Carried();
    S2Place1();
    ThirdRow(Spanned2.rows);
    S2Place2();
  }

  lemma S2Flush()
    ensures Width(S2L0) == 6 && Overhang(S2L0) == 0
    ensures Width(S2L1) == 5 && Overhang(S2L1) == 0
    ensures Width(S2L2) == 3 && Overhang(S2L2) == 0
  {
    Flush(S2L0, 6);
    Flush(S2L1, 5);
    Flush(S2L2, 3);
  }

  lemma S2Widths()
    ensures RowWidths(Spanned2.rows) == [6, 5, 3]
    ensures Overhangs(Spanned2.rows) == [0, 0, 0]
  {
    S2Layouts();
    ThreeRows(Spanned2.rows, S2L0, S2L1, S2L2);
    S2Flush();
  }

  lemma S2Gaps() ensures Gaps([6, 5, 3], [0, 1, 3])
  {
    assert MaxOf([6, 5, 3]) == 6;
  }

  lemma S2Flat() ensures Measure(Spanned2) == 0
  {
    S2Widths();
    assert Sum([0, 0, 0]) == 0;
  }

  lemma S2Extend() ensures Extend(Spanned2.rows, [0, 1, 3]) == Spanned2Fixed.rows
  {
    assert Empties(0) == [] && Empties(1) == [EmptyCell] && Empties(3) == [EmptyCell, EmptyCell, EmptyCell];
    ExtendThree(Spanned2.rows, [0, 1, 3], Spanned2Fixed.rows);
  }

  lemma S2Fits() ensures RowspansFit(Spanned2)
  {
  }

  /** The last row counts the column the two-row cell takes from it, so it gets three empty cells, not four. */
  lemma Spanned2Repaired()
    ensures Repaired(Spanned2) == Spanned2Fixed
  {
    S2Fits();
    S2Flat();
    S2Widths();
    S2Gaps();
    S2Extend();
    WalkedCase(Spanned2, [6, 5, 3], [0, 1, 3], Spanned2Fixed);
  }

  // ---------------------------------------------------------------------------------------------
  // tests/tableediting.js:428-445: in a table with two heading rows, rowspans are cut at the end
  // of the heading section.

  const HeaderSpans: Table := Table([
    [Cell(2, 1, "00"), Cell(3, 1, "01"), Plain("02")],
    [Cell(8, 1, "12")],
    [Plain("20"), Plain("21"), Plain("22")]], 2, 0)

  const HeaderSpansFixed: Table := Table([
    [Cell(2, 1, "00"), Cell(2, 1, "01"), Plain("02")],
    [Plain("12")],
    [Plain("20"), Plain("21"), Plain("22")]], 2, 0)

  const HsL0 := Placement([Slot(0, 0, 2, 1), Slot(0, 1, 2, 1), Slot(0, 2, 1, 1)], {0, 1, 2}, 3)
  const HsL1 := Placement([Slot(1, 2, 1, 1)], {0, 1, 2}, 3)
  const HsL2 := Placement([Slot(2, 0, 1, 1), Slot(2, 1, 1, 1), Slot(2, 2, 1, 1)], {0, 1, 2}, 3)

  lemma HsClamp() ensures ClampRowspans(HeaderSpans) == HeaderSpansFixed
  {
    var t := HeaderSpans;
    assert RowLimit(t, 0) == 2 && RowLimit(t, 1) == 2 && RowLimit(t, 2) == 3;
    var o0 := TrimmedRow(t.rows[0], 0, 2);
    assert o0[0] == Cell(2, 1, "00") && o0[1] == Cell(2, 1, "01") && o0[2] == Plain("02");
    var o1 := TrimmedRow(t.rows[1], 1, 2);
    assert o1[0] == Plain("12");
    var o2 := TrimmedRow(t.rows[2], 2, 3);
    assert o2[0] == Plain("20") && o2[1] == Plain("21") && o2[2] == Plain("22");
    ClampThree(t, HeaderSpansFixed.rows);
  }

  lemma HsPlace0() ensures Place(0, HeaderSpansFixed.rows[0], {}, 0) == HsL0
  {
    var row := HeaderSpansFixed.rows[0];
    assert row[1..] == [Cell(2, 1, "01"), Plain("02")] && row[1..][1..] == [Plain("02")] && row[1..][1..][1..] == [];
    assert Skip({0, 1}, 2) == 2 && {0, 1} + Columns(2, 1) == {0, 1, 2};
    assert Place(0, row[1..][1..], {0, 1}, 2) == Placement([Slot(0, 2, 1, 1)], {0, 1, 2}, 3);
    assert Skip({0}, 1) == 1 && {0} + Columns(1, 1) == {0, 1};
    assert Place(0, row[1..], {0}, 1) == Placement([Slot(0, 1, 2, 1), Slot(0, 2, 1, 1)], {0, 1, 2}, 3);
    assert Skip({}, 0) == 0 && {} + Columns(0, 1) == {0};
  }

  lemma HsPlace1() ensures Place(1, HeaderSpansFixed.rows[1], {0, 1}, 0) == HsL1
  {
    assert HeaderSpansFixed.rows[1][1..] == [];
    SkipAt({0, 1}, 0, 2);
    assert {0, 1} + Columns(2, 1) == {0, 1, 2};
  }

  lemma HsPlace2() ensures Place(2, HeaderSpansFixed.rows[2], {}, 0) == HsL2
  {
    var row := HeaderSpansFixed.rows[2];
    assert row[1..] == [Plain("21"), Plain("22")] && row[1..][1..] == [Plain("22")] && row[1..][1..][1..] == [];
    assert Skip({0, 1}, 2) == 2 && {0, 1} + Columns(2, 1) == {0, 1, 2};
    assert Place(2, row[1..][1..], {0, 1}, 2) == Placement([Slot(2, 2, 1, 1)], {0, 1, 2}, 3);
    assert Skip({0}, 1) == 1 && {0} + Columns(1, 1) == {0, 1};
    assert Place(2, row[1..], {0}, 1) == Placement([Slot(2, 1, 1, 1), Slot(2, 2, 1, 1)], {0, 1, 2}, 3);
    assert Skip({}, 0) == 0 && {} + Columns(0, 1) == {0};
  }

  lemma HsCarried()
    ensures CarriedByRow(HsL0.slots, 1) == {0, 1}
    ensures CarriedByRow(HsL0.slots, 2) + CarriedByRow(HsL1.slots, 2) == {}
  {
    assert HsL0.slots[1..][1..][1..] == [] && HsL1.slots[1..] == [];
    assert Columns(0, 1) == {0} && Columns(1, 1) == {1};
  }

  lemma HsLayouts()
    ensures Layouts(HeaderSpansFixed.rows)[0] == HsL0
    ensures Layouts(HeaderSpansFixed.rows)[1] == HsL1
    ensures Layouts(HeaderSpansFixed.rows)[2] == HsL2
  {
    var rows := HeaderSpansFixed.rows;
    FirstRow(rows);
    HsPlace0();
    SecondRow(rows);
    HsCarried();
    HsPlace1();
    ThirdRow(rows);
    HsPlace2();
  }

  lemma HsFlush()
    ensures Width(HsL0) == 3 && Overhang(HsL0) == 0
    ensures Width(HsL1) == 3 && Overhang(HsL1) == 0
    ensures Width(HsL2) == 3 && Overhang(HsL2) == 0
  {
    Flush(HsL0, 3);
    Flush(HsL1, 3);
    Flush(HsL2, 3);
  }

  lemma HsWidths() ensures RowWidths(HeaderSpansFixed.rows) == [3, 3, 3]
  {
    HsLayouts();
    ThreeRows(HeaderSpansFixed.rows, HsL0, HsL1, HsL2);
    HsFlush();
  }

  /**
   * The two heading cells that reach past the second row are cut to it, the one in the second
   * row to that row alone; the rows are then all three columns wide.
   */
  lemma HeaderSpansRepaired()
    ensures Repaired(HeaderSpans) == HeaderSpansFixed
  {
    HsClamp();
    HsWidths();
    EvenCase(HeaderSpans, HeaderSpansFixed, 3);
  }

  // ---------------------------------------------------------------------------------------------
  // tests/tableediting.js:447-464: below one heading row, rowspans are cut at the end of the table.

  const BodySpans: Table := Table([
    [Plain("00"), Plain("01"), Plain("02")],
    [Cell(2, 1, "10"), Cell(3, 1, "11"), Plain("12")],
    [Cell(8, 1, "22")]], 1, 0)

  const BodySpansFixed: Table := Table([
    [Plain("00"), Plain("01"), Plain("02")],
    [Cell(2, 1, "10"), Cell(2, 1, "11"), Plain("12")],
    [Plain("22")]], 1, 0)

  const BsL0 := Placement([Slot(0, 0, 1, 1), Slot(0, 1, 1, 1), Slot(0, 2, 1, 1)], {0, 1, 2}, 3)
  const BsL1 := Placement([Slot(1, 0, 2, 1), Slot(1, 1, 2, 1), Slot(1, 2, 1, 1)], {0, 1, 2}, 3)
  const BsL2 := Placement([Slot(2, 2, 1, 1)], {0, 1, 2}, 3)

  lemma BsClamp() ensures ClampRowspans(BodySpans) == BodySpansFixed
  {
    var t := BodySpans;
    assert RowLimit(t, 0) == 1 && RowLimit(t, 1) == 3 && RowLimit(t, 2) == 3;
    var o0 := TrimmedRow(t.rows[0], 0, 1);
    assert o0[0] == Plain("00") && o0[1] == Plain("01") && o0[2] == Plain("02");
    var o1 := TrimmedRow(t.rows[1], 1, 3);
    assert o1[0] == Cell(2, 1, "10") && o1[1] == Cell(2, 1, "11") && o1[2] == Plain("12");
    var o2 := TrimmedRow(t.rows[2], 2, 3);
    assert o2[0] == Plain("22");
    ClampThree(t, BodySpansFixed.rows);
  }

  lemma BsPlace0() ensures Place(0, BodySpansFixed.rows[0], {}, 0) == BsL0
  {
    var row := BodySpansFixed.rows[0];
    assert row[1..] == [Plain("01"), Plain("02")] && row[1..][1..] == [Plain("02")] && row[1..][1..][1..] == [];
    assert Skip({0, 1}, 2) == 2 && {0, 1} + Columns(2, 1) == {0, 1, 2};
    assert Place(0, row[1..][1..], {0, 1}, 2) == Placement([Slot(0, 2, 1, 1)], {0, 1, 2}, 3);
    assert Skip({0}, 1) == 1 && {0} + Columns(1, 1) == {0, 1};
    assert Place(0, row[1..], {0}, 1) == Placement([Slot(0, 1, 1, 1), Slot(0, 2, 1, 1)], {0, 1, 2}, 3);
    assert Skip({}, 0) == 0 && {} + Columns(0, 1) == {0};
  }

  lemma BsPlace1() ensures Place(1, BodySpansFixed.rows[1], {}, 0) == BsL1
  {
    var row := BodySpansFixed.rows[1];
    assert row[1..] == [Cell(2, 1, "11"), Plain("12")] && row[1..][1..] == [Plain("12")] && row[1..][1..][1..] == [];
    assert Skip({0, 1}, 2) == 2 && {0, 1} + Columns(2, 1) == {0, 1, 2};
    assert Place(1, row[1..][1..], {0, 1}, 2) == Placement([Slot(1, 2, 1, 1)], {0, 1, 2}, 3);
    assert Skip({0}, 1) == 1 && {0} + Columns(1, 1) == {0, 1};
    assert Place(1, row[1..], {0}, 1) == Placement([Slot(1, 1, 2, 1), Slot(1, 2, 1, 1)], {0, 1, 2}, 3);
    assert Skip({}, 0) == 0 && {} + Columns(0, 1) == {0};
  }

  lemma BsPlace2() ensures Place(2, BodySpansFixed.rows[2], {0, 1}, 0) == BsL2
  {
    assert BodySpansFixed.rows[2][1..] == [];
    SkipAt({0, 1}, 0, 2);
    assert {0, 1} + Columns(2, 1) == {0, 1, 2};
  }

  lemma BsCarried()
    ensures CarriedByRow(BsL0.slots, 1) == {}
    ensures CarriedByRow(BsL0.slots, 2) + CarriedByRow(BsL1.slots, 2) == {0, 1}
  {
    assert BsL0.slots[1..][1..][1..] == [] && BsL1.slots[1..][1..][1..] == [];
    assert Columns(0, 1) == {0} && Columns(1, 1) == {1};
  }

  lemma BsLayouts()
    ensures Layouts(BodySpansFixed.rows)[0] == BsL0
    ensures Layouts(BodySpansFixed.rows)[1] == BsL1
    ensures Layouts(BodySpansFixed.rows)[2] == BsL2
  {
    var rows := BodySpansFixed.rows;
    FirstRow(rows);
    BsPlace0();
    SecondRow(rows);
    BsCarried();
    BsPlace1();
    ThirdRow(rows);
    BsPlace2();
  }

  lemma BsFlush()
    ensures Width(BsL0) == 3 && Overhang(BsL0) == 0
    ensures Width(BsL1) == 3 && Overhang(BsL1) == 0
    ensures Width(BsL2) == 3 && Overhang(BsL2) == 0
  {
    Flush(BsL0, 3);
    Flush(BsL1, 3);
    Flush(BsL2, 3);
  }

  lemma BsWidths() ensures RowWidths(BodySpansFixed.rows) == [3, 3, 3]
  {
    BsLayouts();
    ThreeRows(BodySpansFixed.rows, BsL0, BsL1, BsL2);
    BsFlush();
  }

  /**
   * The heading row is left alone; in the body the cell that reaches past the last row is cut
   * to end there and the one in the last row to that row alone.
   */
  lemma BodySpansRepaired()
    ensures Repaired(BodySpans) == BodySpansFixed
  {
    BsClamp();
    BsWidths();
    EvenCase(BodySpans, BodySpansFixed, 3);
  }
}
