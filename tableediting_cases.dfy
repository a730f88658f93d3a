/**
 * The editing scenarios of the post-fixer tests in which two batches of changes meet: each scenario
 * loads a table, applies the local changes, lets the post-fixer run, applies the other side's
 * changes as they arrive, and lets the post-fixer run again. Each method states the table the test
 * expects at the end.
 */
module TableEditingCases {
  import opened Tables
  import opened Grid
  import opened PostFixer
  import opened TableEditing
  import opened PostFixerCases

  // ---------------------------------------------------------------------------------------------
  // Repairs of tables without rowspans.

  /** A table without rowspans whose rows all span `n` columns is left as it is. */
  lemma {:induction false} SingleRowEven(t: Table, n: nat)
    requires SingleRowCells(t.rows) && |t.rows| > 0
    requires forall r :: 0 <= r < |t.rows| ==> ColspanSum(t.rows[r]) == n
    ensures Repaired(t) == t
  {
    var ws := seq(|t.rows|, _ => n);
    SingleRowWidths(t, ws);
    assert RowWidths(t.rows)[0] == n;
    assert TableWidth(t.rows) == n;
    assert EqualWidths(t);
    assert RowspansFit(t);
    RepairedKeepsValid(t);
  }

  /** Two rows extended by known counts. */
  lemma {:induction false} ExtendTwo(rows: seq<seq<Cell>>, ks: seq<nat>, out: seq<seq<Cell>>)
    requires |rows| == 2 && |ks| == 2 && |out| == 2
    requires out[0] == rows[0] + Empties(ks[0]) && out[1] == rows[1] + Empties(ks[1])
    ensures Extend(rows, ks) == out
  {
    var e := Extend(rows, ks);
    assert e[0] == out[0] && e[1] == out[1];
  }

  // ---------------------------------------------------------------------------------------------
  // The tables the scenarios pass through.

  const A := Plain("a")
  const B := Plain("b")
  const E := EmptyCell

  /** The two-by-two table most scenarios start from. */
  const Square: Table := Table([[Plain("00"), Plain("01")], [Plain("10"), Plain("11")]], 0, 0)

  /** `Square` with a row of two cells inserted in the middle. */
  const SquareWithRow: Table := Table([[Plain("00"), Plain("01")], [A, B], [Plain("10"), Plain("11")]], 0, 0)

  const LeftColumn: Table := Table([[Plain("00")], [Plain("10")]], 0, 0)

  /** A one-cell column with a two-cell row between its cells, and that table repaired. */
  const NarrowWithRow: Table := Table([[Plain("00")], [A, B], [Plain("10")]], 0, 0)
  const NarrowWithRowFixed: Table := Table([[Plain("00"), E], [A, B], [Plain("10"), E]], 0, 0)

  const SquareWithColumn: Table := Table([[Plain("00"), E, Plain("01")], [Plain("10"), E, Plain("11")]], 0, 0)

  /** A three-cell-wide table with a two-cell row in the middle, and that table repaired. */
  const WideWithRow: Table := Table([[Plain("00"), E, Plain("01")], [A, B], [Plain("10"), E, Plain("11")]], 0, 0)
  const WideWithRowFixed: Table := Table([[Plain("00"), E, Plain("01")], [A, B, E], [Plain("10"), E, Plain("11")]], 0, 0)

  lemma SquareEven() ensures Repaired(Square) == Square
  {
    PlainRowSum(Square.rows[0]);
    PlainRowSum(Square.rows[1]);
    SingleRowEven(Square, 2);
  }

  lemma SquareWithRowEven() ensures Repaired(SquareWithRow) == SquareWithRow
  {
    PlainRowSum(SquareWithRow.rows[0]);
    PlainRowSum(SquareWithRow.rows[1]);
    PlainRowSum(SquareWithRow.rows[2]);
    SingleRowEven(SquareWithRow, 2);
  }

  lemma LeftColumnEven() ensures Repaired(LeftColumn) == LeftColumn
  {
    PlainRowSum(LeftColumn.rows[0]);
    PlainRowSum(LeftColumn.rows[1]);
    SingleRowEven(LeftColumn, 1);
  }

  lemma SquareWithColumnEven() ensures Repaired(SquareWithColumn) == SquareWithColumn
  {
    PlainRowSum(SquareWithColumn.rows[0]);
    PlainRowSum(SquareWithColumn.rows[1]);
    SingleRowEven(SquareWithColumn, 3);
  }

  lemma NarrowWithRowSums()
    ensures SingleRowCells(NarrowWithRow.rows)
    ensures ColspanSum(NarrowWithRow.rows[0]) == 1 && ColspanSum(NarrowWithRow.rows[1]) == 2 && ColspanSum(NarrowWithRow.rows[2]) == 1
  {
    PlainRowSum(NarrowWithRow.rows[0]);
    PlainRowSum(NarrowWithRow.rows[1]);
    PlainRowSum(NarrowWithRow.rows[2]);
  }

  lemma NarrowWithRowExtend() ensures Extend(NarrowWithRow.rows, [1, 0, 1]) == NarrowWithRowFixed.rows
  {
    assert Empties(1) == [E] && Empties(0) == [];
    ExtendThree(NarrowWithRow.rows, [1, 0, 1], NarrowWithRowFixed.rows);
  }

  /** The one-cell rows get an empty cell each. */
  lemma NarrowWithRowRepaired() ensures Repaired(NarrowWithRow) == NarrowWithRowFixed
  {
    NarrowWithRowSums();
    assert Gaps([1, 2, 1], [1, 0, 1]) by {
      assert MaxOf([1, 2, 1]) == 2;
    }
    SingleRowCase(NarrowWithRow, [1, 2, 1], [1, 0, 1]);
    NarrowWithRowExtend();
  }

  lemma WideWithRowSums()
    ensures SingleRowCells(WideWithRow.rows)
    ensures ColspanSum(WideWithRow.rows[0]) == 3 && ColspanSum(WideWithRow.rows[1]) == 2 && ColspanSum(WideWithRow.rows[2]) == 3
  {
    PlainRowSum(WideWithRow.rows[0]);
    PlainRowSum(WideWithRow.rows[1]);
    PlainRowSum(WideWithRow.rows[2]);
  }

  lemma WideWithRowExtend() ensures Extend(WideWithRow.rows, [0, 1, 0]) == WideWithRowFixed.rows
  {
    assert Empties(1) == [E] && Empties(0) == [];
    ExtendThree(WideWithRow.rows, [0, 1, 0], WideWithRowFixed.rows);
  }

  /** The two-cell row gets an empty cell. */
  lemma WideWithRowRepaired() ensures Repaired(WideWithRow) == WideWithRowFixed
  {
    WideWithRowSums();
    assert Gaps([3, 2, 3], [0, 1, 0]) by {
      assert MaxOf([3, 2, 3]) == 3;
    }
    SingleRowCase(WideWithRow, [3, 2, 3], [0, 1, 0]);
    WideWithRowExtend();
  }

  // The single edits of the scenarios.

  lemma SquareColumnRemoved()
    ensures ColumnTargets(Square.rows, 1, [0, 1], 1)
    ensures ColumnRemoved(Square.rows, 1, [0, 1]) == LeftColumn.rows
  {
    var out := ColumnRemoved(Square.rows, 1, [0, 1]);
    assert out[0] == [Plain("00")] && out[1] == [Plain("10")];
  }

  lemma LeftColumnRowInserted() ensures RowInserted(LeftColumn.rows, 1, [A, B]) == NarrowWithRow.rows
  {
    var out := RowInserted(LeftColumn.rows, 1, [A, B]);
    assert out[0] == NarrowWithRow.rows[0] && out[1] == NarrowWithRow.rows[1] && out[2] == NarrowWithRow.rows[2];
  }

  lemma SquareRowInserted() ensures RowInserted(Square.rows, 1, [A, B]) == SquareWithRow.rows
  {
    var out := RowInserted(Square.rows, 1, [A, B]);
    assert out[0] == SquareWithRow.rows[0] && out[1] == SquareWithRow.rows[1] && out[2] == SquareWithRow.rows[2];
  }

  lemma SquareWithRowColumnRemoved()
    ensures ColumnTargets(SquareWithRow.rows, 1, [0, 2], 1)
    ensures ColumnRemoved(SquareWithRow.rows, 1, [0, 2]) == NarrowWithRow.rows
  {
    var out := ColumnRemoved(SquareWithRow.rows, 1, [0, 2]);
    assert out[0] == [Plain("00")] && out[1] == [A, B] && out[2] == [Plain("10")];
  }

  lemma SquareWithRowColumnInserted()
    ensures ColumnTargets(SquareWithRow.rows, 1, [0, 2], 0)
    ensures ColumnInserted(SquareWithRow.rows, 1, [0, 2]) == WideWithRow.rows
  {
    var out := ColumnInserted(SquareWithRow.rows, 1, [0, 2]);
    assert out[0] == [Plain("00"), E, Plain("01")] && out[1] == [A, B] && out[2] == [Plain("10"), E, Plain("11")];
  }

  lemma SquareColumnInserted()
    ensures ColumnTargets(Square.rows, 1, [0, 1], 0)
    ensures ColumnInserted(Square.rows, 1, [0, 1]) == SquareWithColumn.rows
  {
    var out := ColumnInserted(Square.rows, 1, [0, 1]);
    assert out[0] == [Plain("00"), E, Plain("01")] && out[1] == [Plain("10"), E, Plain("11")];
  }

  lemma SquareWithColumnRowInserted() ensures RowInserted(SquareWithColumn.rows, 1, [A, B]) == WideWithRow.rows
  {
    var out := RowInserted(SquareWithColumn.rows, 1, [A, B]);
    assert out[0] == WideWithRow.rows[0] && out[1] == WideWithRow.rows[1] && out[2] == WideWithRow.rows[2];
  }

  // ---------------------------------------------------------------------------------------------
  // tests/tableediting.js:466-542: a column removed or inserted on one side, a row inserted on the other.

  /** One side removes the second column, the other inserts a row: the short rows are padded. */
  method RemoveColumnThenInsertRow() returns (t: Table)
    ensures t == NarrowWithRowFixed
  {
    var m := new TableModel(Square);
    SquareEven();
    m.PostFix();
    SquareColumnRemoved();
    m.RemoveColumn(1, [0, 1]);
    LeftColumnEven();
    m.PostFix();
    LeftColumnRowInserted();
    m.InsertRow(1, [A, B]);
    NarrowWithRowRepaired();
    m.PostFix();
    t := m.Value();
  }

  /** One side inserts a row, the other removes the second cell of the old rows: the same table results. */
  method InsertRowThenRemoveColumn() returns (t: Table)
    ensures t == NarrowWithRowFixed
  {
    var m := new TableModel(Square);
    SquareEven();
    m.PostFix();
    SquareRowInserted();
    m.InsertRow(1, [A, B]);
    SquareWithRowEven();
    m.PostFix();
    SquareWithRowColumnRemoved();
    m.RemoveColumn(1, [0, 2]);
    NarrowWithRowRepaired();
    m.PostFix();
    t := m.Value();
  }

  /** One side inserts a row, the other a column in the old rows: the new row gets an empty cell. */
  method InsertRowThenInsertColumn() returns (t: Table)
    ensures t == WideWithRowFixed
  {
    var m := new TableModel(Square);
    SquareEven();
    m.PostFix();
    SquareRowInserted();
    m.InsertRow(1, [A, B]);
    SquareWithRowEven();
    m.PostFix();
    SquareWithRowColumnInserted();
    m.InsertColumn(1, [0, 2]);
    WideWithRowRepaired();
    m.PostFix();
    t := m.Value();
  }

  /** One side inserts a column, the other a row: the same table results. */
  method InsertColumnThenInsertRow() returns (t: Table)
    ensures t == WideWithRowFixed
  {
    var m := new TableModel(Square);
    SquareEven();
    m.PostFix();
    SquareColumnInserted();
    m.InsertColumn(1, [0, 1]);
    SquareWithColumnEven();
    m.PostFix();
    SquareWithColumnRowInserted();
    m.InsertRow(1, [A, B]);
    WideWithRowRepaired();
    m.PostFix();
    t := m.Value();
  }

  // ---------------------------------------------------------------------------------------------
  // tests/tableediting.js:544-590: both sides widen a spanned first row and insert a column into
  // the second row.

  const Spanned: Table := Table([[Cell(1, 3, "00")], [Plain("10"), Plain("11"), Plain("12")]], 0, 0)

  /** The first row widened to four columns, before any column is inserted. */
  const Widened: Table := Table([[Cell(1, 4, "00")], [Plain("10"), Plain("11"), Plain("12")]], 0, 0)

  /** After the column inserted before `12`, and after the one inserted before `11`. */
  const WidenedLate: Table := Table([[Cell(1, 4, "00")], [Plain("10"), Plain("11"), E, Plain("12")]], 0, 0)
  const WidenedEarly: Table := Table([[Cell(1, 4, "00")], [Plain("10"), E, Plain("11"), Plain("12")]], 0, 0)

  /** After both columns are inserted, and that table repaired. */
  const WidenedTwice: Table := Table([[Cell(1, 4, "00")], [Plain("10"), E, Plain("11"), E, Plain("12")]], 0, 0)
  const WidenedTwiceFixed: Table := Table([[Cell(1, 4, "00"), E], [Plain("10"), E, Plain("11"), E, Plain("12")]], 0, 0)

  lemma SingleCellSum(c: Cell) ensures ColspanSum([c]) == c.colspan
  {
    assert [c][1..] == [];
  }

  lemma SpannedEven() ensures Repaired(Spanned) == Spanned
  {
    SingleCellSum(Spanned.rows[0][0]);
    assert Spanned.rows[0] == [Spanned.rows[0][0]];
    PlainRowSum(Spanned.rows[1]);
    SingleRowEven(Spanned, 3);
  }

  lemma WidenedLateEven() ensures Repaired(WidenedLate) == WidenedLate
  {
    SingleCellSum(WidenedLate.rows[0][0]);
    assert WidenedLate.rows[0] == [WidenedLate.rows[0][0]];
    PlainRowSum(WidenedLate.rows[1]);
    SingleRowEven(WidenedLate, 4);
  }

  lemma WidenedEarlyEven() ensures Repaired(WidenedEarly) == WidenedEarly
  {
    SingleCellSum(WidenedEarly.rows[0][0]);
    assert WidenedEarly.rows[0] == [WidenedEarly.rows[0][0]];
    PlainRowSum(WidenedEarly.rows[1]);
    SingleRowEven(WidenedEarly, 4);
  }

  lemma WidenedTwiceSums()
    ensures SingleRowCells(WidenedTwice.rows)
    ensures ColspanSum(WidenedTwice.rows[0]) == 4 && ColspanSum(WidenedTwice.rows[1]) == 5
  {
    SingleCellSum(WidenedTwice.rows[0][0]);
    assert WidenedTwice.rows[0] == [WidenedTwice.rows[0][0]];
    PlainRowSum(WidenedTwice.rows[1]);
  }

  lemma WidenedTwiceExtend() ensures Extend(WidenedTwice.rows, [1, 0]) == WidenedTwiceFixed.rows
  {
    assert Empties(1) == [E] && Empties(0) == [];
    ExtendTwo(WidenedTwice.rows, [1, 0], WidenedTwiceFixed.rows);
  }

  /** The four-column first row gets an empty cell to match the five cells below it. */
  lemma WidenedTwiceRepaired() ensures Repaired(WidenedTwice) == WidenedTwiceFixed
  {
    WidenedTwiceSums();
    assert Gaps([4, 5], [1, 0]) by {
      assert MaxOf([4, 5]) == 5;
    }
    SingleRowCase(WidenedTwice, [4, 5], [1, 0]);
    WidenedTwiceExtend();
  }

  /** The rows of `t` with the colspan of the first cell set to 4. */
  function ToFourColumns(t: Table): seq<seq<Cell>>
    requires |t.rows| > 0 && |t.rows[0]| > 0
  {
    t.rows[0 := t.rows[0][0 := t.rows[0][0].(colspan := 4)]]
  }

  lemma SpannedWidened() ensures ToFourColumns(Spanned) == Widened.rows
  {
    var w := ToFourColumns(Spanned);
    assert w[0] == [Cell(1, 4, "00")] && w[1] == Widened.rows[1];
  }

  /** Setting the colspan a second time changes nothing. */
  lemma WidenedAgain()
    ensures ToFourColumns(WidenedLate) == WidenedLate.rows
    ensures ToFourColumns(WidenedEarly) == WidenedEarly.rows
  {
    var a := ToFourColumns(WidenedLate);
    assert a[0] == WidenedLate.rows[0] && a[1] == WidenedLate.rows[1];
    var b := ToFourColumns(WidenedEarly);
    assert b[0] == WidenedEarly.rows[0] && b[1] == WidenedEarly.rows[1];
  }

  lemma WidenedColumnInserted()
    ensures ColumnTargets(Widened.rows, 2, [1], 0) && ColumnTargets(Widened.rows, 1, [1], 0)
    ensures ColumnInserted(Widened.rows, 2, [1]) == WidenedLate.rows
    ensures ColumnInserted(Widened.rows, 1, [1]) == WidenedEarly.rows
  {
    var late := ColumnInserted(Widened.rows, 2, [1]);
    assert late[0] == WidenedLate.rows[0] && late[1] == WidenedLate.rows[1];
    var early := ColumnInserted(Widened.rows, 1, [1]);
    assert early[0] == WidenedEarly.rows[0] && early[1] == WidenedEarly.rows[1];
  }

  lemma SecondColumnInserted()
    ensures ColumnTargets(WidenedLate.rows, 1, [1], 0) && ColumnTargets(WidenedEarly.rows, 3, [1], 0)
    ensures ColumnInserted(WidenedLate.rows, 1, [1]) == WidenedTwice.rows
    ensures ColumnInserted(WidenedEarly.rows, 3, [1]) == WidenedTwice.rows
  {
    var a := ColumnInserted(WidenedLate.rows, 1, [1]);
    assert a[0] == WidenedTwice.rows[0] && a[1] == WidenedTwice.rows[1];
    var b := ColumnInserted(WidenedEarly.rows, 3, [1]);
    assert b[0] == WidenedTwice.rows[0] && b[1] == WidenedTwice.rows[1];
  }

  /**
   * One side widens `00` and inserts a column before `12`, the other widens `00` again and inserts
   * a column before `11`: the first row gets an empty cell.
   */
  method WidenAndInsertLateThenEarly() returns (t: Table)
    ensures t == WidenedTwiceFixed
  {
    var m := new TableModel(Spanned);
    SpannedEven();
    m.PostFix();
    SpannedWidened();
    m.SetColspan(0, 0, 4);
    WidenedColumnInserted();
    m.InsertColumn(2, [1]);
    WidenedLateEven();
    m.PostFix();
    WidenedAgain();
    m.SetColspan(0, 0, 4);
    SecondColumnInserted();
    m.InsertColumn(1, [1]);
    WidenedTwiceRepaired();
    m.PostFix();
    t := m.Value();
  }

  /** The same with the columns inserted before `11` and then before the second `12`: the same table results. */
  method WidenAndInsertEarlyThenLate() returns (t: Table)
    ensures t == WidenedTwiceFixed
  {
    var m := new TableModel(Spanned);
    SpannedEven();
    m.PostFix();
    SpannedWidened();
    m.SetColspan(0, 0, 4);
    WidenedColumnInserted();
    m.InsertColumn(1, [1]);
    WidenedEarlyEven();
    m.PostFix();
    WidenedAgain();
    m.SetColspan(0, 0, 4);
    SecondColumnInserted();
    m.InsertColumn(3, [1]);
    WidenedTwiceRepaired();
    m.PostFix();
    t := m.Value();
  }

  // ---------------------------------------------------------------------------------------------
  // tests/tableediting.js:592-640: one side makes the first row a heading row and ends the two-row
  // cell `12` in it, the other removes the row that cell reaches into.

  /** The table both scenarios start from: `12` spans the first two rows. */
  const Tall: Table := Table([
    [Plain("11"), Cell(2, 1, "12"), Plain("13")],
    [Plain("21"), Plain("23")],
    [Plain("31"), Plain("32"), Plain("33")]], 0, 0)

  const TaL0 := Placement([Slot(0, 0, 1, 1), Slot(0, 1, 2, 1), Slot(0, 2, 1, 1)], {0, 1, 2}, 3)
  const TaL1 := Placement([Slot(1, 0, 1, 1), Slot(1, 2, 1, 1)], {0, 1, 2}, 3)
  const TaL2 := Placement([Slot(2, 0, 1, 1), Slot(2, 1, 1, 1), Slot(2, 2, 1, 1)], {0, 1, 2}, 3)

  /** The top row of `Tall` is walked alike wherever it heads a table. */
  lemma TallTopRow(row: nat, cells: seq<Cell>)
    requires cells == [Plain("11"), Cell(2, 1, "12"), Plain("13")]
    ensures Place(row, cells, {}, 0) ==
      Placement([Slot(row, 0, 1, 1), Slot(row, 1, 2, 1), Slot(row, 2, 1, 1)], {0, 1, 2}, 3)
  {
    assert cells[1..] == [Cell(2, 1, "12"), Plain("13")] && cells[1..][1..] == [Plain("13")] && cells[1..][1..][1..] == [];
    assert Skip({0, 1}, 2) == 2 && {0, 1} + Columns(2, 1) == {0, 1, 2};
    assert Place(row, cells[1..][1..], {0, 1}, 2) == Placement([Slot(row, 2, 1, 1)], {0, 1, 2}, 3);
    assert Skip({0}, 1) == 1 && {0} + Columns(1, 1) == {0, 1};
    assert Place(row, cells[1..], {0}, 1) == Placement([Slot(row, 1, 2, 1), Slot(row, 2, 1, 1)], {0, 1, 2}, 3);
    assert Skip({}, 0) == 0 && {} + Columns(0, 1) == {0};
  }

  lemma TaPlace1() ensures Place(1, Tall.rows[1], {1}, 0) == TaL1
  {
    var row := Tall.rows[1];
    assert row[1..] == [Plain("23")] && row[1..][1..] == [];
    assert Skip({0, 1}, 1) == 2 && {0, 1} + Columns(2, 1) == {0, 1, 2};
    assert Place(1, row[1..], {0, 1}, 1) == Placement([Slot(1, 2, 1, 1)], {0, 1, 2}, 3);
    assert Skip({1}, 0) == 0 && {1} + Columns(0, 1) == {0, 1};
  }

  lemma TaPlace2() ensures Place(2, Tall.rows[2], {}, 0) == TaL2
  {
    var row := Tall.rows[2];
    assert row[1..] == [Plain("32"), Plain("33")] && row[1..][1..] == [Plain("33")] && row[1..][1..][1..] == [];
    assert Skip({0, 1}, 2) == 2 && {0, 1} + Columns(2, 1) == {0, 1, 2};
    assert Place(2, row[1..][1..], {0, 1}, 2) == Placement([Slot(2, 2, 1, 1)], {0, 1, 2}, 3);
    assert Skip({0}, 1) == 1 && {0} + Columns(1, 1) == {0, 1};
    assert Place(2, row[1..], {0}, 1) == Placement([Slot(2, 1, 1, 1), Slot(2, 2, 1, 1)], {0, 1, 2}, 3);
    assert Skip({}, 0) == 0 && {} + Columns(0, 1) == {0};
  }

  lemma TaCarried()
    ensures CarriedByRow(TaL0.slots, 1) == {1}
    ensures CarriedByRow(TaL0.slots, 2) + CarriedByRow(TaL1.slots, 2) == {}
  {
    assert TaL0.slots[1..][1..][1..] == [] && TaL1.slots[1..][1..] == [];
    assert Columns(1, 1) == {1};
  }

  lemma TaLayouts()
    ensures Layouts(Tall.rows)[0] == TaL0 && Layouts(Tall.rows)[1] == TaL1 && Layouts(Tall.rows)[2] == TaL2
  {
    FirstRow(Tall.rows);
    TallTopRow(0, Tall.rows[0]);
    SecondRow(Tall.rows);
    TaCarried();
    TaPlace1();
    ThirdRow(Tall.rows);
    TaPlace2();
  }

  lemma TaFlush()
    ensures Width(TaL0) == 3 && Overhang(TaL0) == 0
    ensures Width(TaL1) == 3 && Overhang(TaL1) == 0
    ensures Width(TaL2) == 3 && Overhang(TaL2) == 0
  {
    Flush(TaL0, 3);
    Flush(TaL1, 3);
    Flush(TaL2, 3);
  }

  lemma TaWidths() ensures RowWidths(Tall.rows) == [3, 3, 3]
  {
    TaLayouts();
    ThreeRows(Tall.rows, TaL0, TaL1, TaL2);
    TaFlush();
  }

  /** `Tall` is already valid: the row under `12` counts the column it takes. */
  lemma TallEven() ensures Repaired(Tall) == Tall
  {
    assert RowspansFit(Tall);
    ClampRowspansChanges(Tall);
    TaWidths();
    EvenCase(Tall, Tall, 3);
  }

  /** After the local changes: a heading row, `12` ending in it, and an empty cell in the second row. */
  const Headed: Table := Table([
    [Plain("11"), Plain("12"), Plain("13")],
    [Plain("21"), E, Plain("23")],
    [Plain("31"), Plain("32"), Plain("33")]], 1, 0)

  /** After the other side removes the second row. */
  const HeadedShort: Table := Table([
    [Plain("11"), Plain("12"), Plain("13")],
    [Plain("31"), Plain("32"), Plain("33")]], 1, 0)

  lemma TallHeaded()
    ensures Tall.rows[0 := Tall.rows[0][1 := Tall.rows[0][1].(rowspan := 1)]] == Tall.rows[0 := Headed.rows[0]]
    ensures Tall.rows[0 := Headed.rows[0]][1 := CellInserted(Tall.rows[1], 1, EmptyCell)] == Headed.rows
  {
    var a := Tall.rows[0][1 := Tall.rows[0][1].(rowspan := 1)];
    assert a[0] == Plain("11") && a[1] == Plain("12") && a[2] == Plain("13");
    assert a == Headed.rows[0];
    var c := CellInserted(Tall.rows[1], 1, EmptyCell);
    assert c[0] == Plain("21") && c[1] == E && c[2] == Plain("23");
    var b := Tall.rows[0 := Headed.rows[0]][1 := c];
    assert b[0] == Headed.rows[0] && b[1] == Headed.rows[1] && b[2] == Headed.rows[2];
  }

  lemma HeadedEven() ensures Repaired(Headed) == Headed
  {
    PlainRowSum(Headed.rows[0]);
    PlainRowSum(Headed.rows[1]);
    PlainRowSum(Headed.rows[2]);
    SingleRowEven(Headed, 3);
  }

  lemma HeadedRowRemoved() ensures RowRemoved(Headed.rows, 1) == HeadedShort.rows
  {
    var out := RowRemoved(Headed.rows, 1);
    assert out[0] == HeadedShort.rows[0] && out[1] == HeadedShort.rows[1];
  }

  lemma HeadedShortEven() ensures Repaired(HeadedShort) == HeadedShort
  {
    PlainRowSum(HeadedShort.rows[0]);
    PlainRowSum(HeadedShort.rows[1]);
    SingleRowEven(HeadedShort, 3);
  }

  /**
   * One side sets one heading row, ends `12` in it and adds a cell to the second row; the other
   * removes the second row: the table stays two rows of three cells, with its heading row.
   */
  method HeadThenRemoveRow() returns (t: Table)
    ensures t == HeadedShort
  {
    var m := new TableModel(Tall);
    TallEven();
    m.PostFix();
    m.SetHeadingRows(1);
    TallHeaded();
    m.SetRowspan(0, 1, 1);
    m.InsertCell(1, 1);
    HeadedEven();
    m.PostFix();
    HeadedRowRemoved();
    m.RemoveRow(1);
    HeadedShortEven();
    m.PostFix();
    t := m.Value();
  }

  /** `Tall` without its second row: `12` now takes a column of the last row. */
  const Short: Table := Table([
    [Plain("11"), Cell(2, 1, "12"), Plain("13")],
    [Plain("31"), Plain("32"), Plain("33")]], 0, 0)

  const ShortFixed: Table := Table([
    [Plain("11"), Cell(2, 1, "12"), Plain("13"), E],
    [Plain("31"), Plain("32"), Plain("33")]], 0, 0)

  /** After the other side's changes, and that table repaired. */
  const ShortHeaded: Table := Table([
    [Plain("11"), Plain("12"), Plain("13"), E],
    [Plain("31"), Plain("32"), Plain("33")]], 1, 0)

  const ShortHeadedFixed: Table := Table([
    [Plain("11"), Plain("12"), Plain("13"), E],
    [Plain("31"), Plain("32"), Plain("33"), E]], 1, 0)

  const ShL0 := Placement([Slot(0, 0, 1, 1), Slot(0, 1, 2, 1), Slot(0, 2, 1, 1)], {0, 1, 2}, 3)
  const ShL1 := Placement([Slot(1, 0, 1, 1), Slot(1, 2, 1, 1), Slot(1, 3, 1, 1)], {0, 1, 2, 3}, 4)

  lemma TallRowRemoved() ensures RowRemoved(Tall.rows, 1) == Short.rows
  {
    var out := RowRemoved(Tall.rows, 1);
    assert out[0] == Short.rows[0] && out[1] == Short.rows[1];
  }

  lemma ShPlace1From2()
    ensures Place(1, [Plain("33")], {0, 1, 2}, 3) == Placement([Slot(1, 3, 1, 1)], {0, 1, 2, 3}, 4)
  {
    assert [Plain("33")][1..] == [];
    assert Skip({0, 1, 2}, 3) == 3 && {0, 1, 2} + Columns(3, 1) == {0, 1, 2, 3};
  }

  lemma ShPlace1From1()
    ensures Place(1, [Plain("32"), Plain("33")], {0, 1}, 1) == Placement([Slot(1, 2, 1, 1), Slot(1, 3, 1, 1)], {0, 1, 2, 3}, 4)
  {
    ShPlace1From2();
    assert [Plain("32"), Plain("33")][1..] == [Plain("33")];
    assert Skip({0, 1}, 1) == 2 && {0, 1} + Columns(2, 1) == {0, 1, 2};
    assert [Slot(1, 2, 1, 1)] + [Slot(1, 3, 1, 1)] == [Slot(1, 2, 1, 1), Slot(1, 3, 1, 1)];
  }

  lemma ShPlace1() ensures Place(1, Short.rows[1], {1}, 0) == ShL1
  {
    ShPlace1From1();
    assert Short.rows[1] == [Plain("31"), Plain("32"), Plain("33")];
    assert [Plain("31"), Plain("32"), Plain("33")][1..] == [Plain("32"), Plain("33")];
    assert Skip({1}, 0) == 0 && {1} + Columns(0, 1) == {0, 1};
    assert [Slot(1, 0, 1, 1)] + [Slot(1, 2, 1, 1), Slot(1, 3, 1, 1)] == [Slot(1, 0, 1, 1), Slot(1, 2, 1, 1), Slot(1, 3, 1, 1)];
  }

  lemma ShCarried() ensures CarriedByRow(ShL0.slots, 1) == {1}
  {
    assert ShL0.slots[1..][1..][1..] == [] && Columns(1, 1) == {1};
  }

  lemma ShLayouts() ensures Layouts(Short.rows)[0] == ShL0 && Layouts(Short.rows)[1] == ShL1
  {
    FirstRow(Short.rows);
    TallTopRow(0, Short.rows[0]);
    SecondRow(Short.rows);
    ShCarried();
    ShPlace1();
  }

  lemma ShFlush()
    ensures Width(ShL0) == 3 && Overhang(ShL0) == 0
    ensures Width(ShL1) == 4 && Overhang(ShL1) == 0
  {
    Flush(ShL0, 3);
    Flush(ShL1, 4);
  }

  lemma ShWidths()
    ensures RowWidths(Short.rows) == [3, 4]
    ensures Overhangs(Short.rows) == [0, 0]
  {
    ShLayouts();
    TwoRows(Short.rows, ShL0, ShL1);
    ShFlush();
  }

  lemma ShFlat() ensures Measure(Short) == 0
  {
    ShWidths();
    assert Sum([0, 0]) == 0;
  }

  lemma ShGaps() ensures Gaps([3, 4], [1, 0])
  {
    assert MaxOf([3, 4]) == 4;
  }

  lemma ShExtend() ensures Extend(Short.rows, [1, 0]) == ShortFixed.rows
  {
    assert Empties(1) == [E] && Empties(0) == [];
    ExtendTwo(Short.rows, [1, 0], ShortFixed.rows);
  }

  /** The last row spans four columns, one taken by `12`, so the first row gets an empty cell. */
  lemma ShortRepaired() ensures Repaired(Short) == ShortFixed
  {
    assert RowspansFit(Short);
    ShFlat();
    ShWidths();
    ShGaps();
    ShExtend();
    WalkedCase(Short, [3, 4], [1, 0], ShortFixed);
  }

  lemma ShortFixedHeaded()
    ensures ShortFixed.rows[0 := ShortFixed.rows[0][1 := ShortFixed.rows[0][1].(rowspan := 1)]] == ShortHeaded.rows
  {
    var a := ShortFixed.rows[0][1 := ShortFixed.rows[0][1].(rowspan := 1)];
    assert a[0] == Plain("11") && a[1] == Plain("12") && a[2] == Plain("13") && a[3] == E;
    var b := ShortFixed.rows[0 := a];
    assert b[0] == ShortHeaded.rows[0] && b[1] == ShortHeaded.rows[1];
  }

  lemma ShortHeadedRepaired() ensures Repaired(ShortHeaded) == ShortHeadedFixed
  {
    ShhSums();
    ShhGaps();
    SingleRowCase(ShortHeaded, [4, 3], [0, 1]);
    ShhExtend();
  }

  lemma ShhSums()
    ensures SingleRowCells(ShortHeaded.rows)
    ensures ColspanSum(ShortHeaded.rows[0]) == 4 && ColspanSum(ShortHeaded.rows[1]) == 3
  {
    PlainRowSum(ShortHeaded.rows[0]);
    PlainRowSum(ShortHeaded.rows[1]);
  }

  lemma ShhGaps() ensures Gaps([4, 3], [0, 1])
  {
    assert MaxOf([4, 3]) == 4;
  }

  lemma ShhExtend() ensures Extend(ShortHeaded.rows, [0, 1]) == ShortHeadedFixed.rows
  {
    assert Empties(1) == [E] && Empties(0) == [];
    ExtendTwo(ShortHeaded.rows, [0, 1], ShortHeadedFixed.rows);
  }

  /**
   * One side removes the second row, the other sets one heading row and ends `12` in it: the
   * first repair pads the first row, the second the last one, so both rows end four cells long.
   */
  method RemoveRowThenHead() returns (t: Table)
    ensures t == ShortHeadedFixed
  {
    var m := new TableModel(Tall);
    TallEven();
    m.PostFix();
    TallRowRemoved();
    m.RemoveRow(1);
    ShortRepaired();
    m.PostFix();
    m.SetHeadingRows(1);
    ShortFixedHeaded();
    m.SetRowspan(0, 1, 1);
    ShortHeadedRepaired();
    m.PostFix();
    t := m.Value();
  }
}
