/**
 * The rendering tests of the editing view: each scenario loads a table, applies the test's
 * changes to it and renders it. Its contract is the view the test expects, section by section and
 * cell by cell: `th` or `td`, with the spans and the contents of the model cell.
 *
 * The steps of each scenario are named after a short prefix that abbreviates its table (each group
 * says which), followed by what the step states about it:
 * - `<T>L<r>`: the walk (`Placement`) of row `r`;
 * - `<T>Place<r>`, `<T>Place<r>From<k>`: walking row `r`, whole or from its cell `k` on, gives it;
 * - `<T>Carried<r>`: the columns the rows above carry into row `r`;
 * - `<T>Layouts`, `<T>Columns`: the walks of all rows, and the start columns they give the cells;
 * - `<T>Kinds<r>`: which cells of row `r` are heading cells;
 * - `<T>Row<r>`, `<T>View`, `<T>Shown`: the rendered row `r`, the expected view, and the proof that
 *   the table renders as that view.
 */
module DowncastCases {
  import opened Tables
  import opened Grid
  import opened Headings
  import opened TableEditing
  import opened PostFixerCases

  const H := HeadingCell
  const D := DataCell

  /** A rendered 1x1 heading cell, `<th>` in the view. */
  function Th(contents: string): ViewCell
  {
    ViewCell(HeadingCell, 1, 1, contents)
  }

  /** A rendered 1x1 data cell, `<td>` in the view. */
  function Td(contents: string): ViewCell
  {
    ViewCell(DataCell, 1, 1, contents)
  }

  /** Every cell of the table is 1x1. */
  predicate PlainCells(rows: seq<seq<Cell>>)
  {
    forall r, k :: 0 <= r < |rows| && 0 <= k < |rows[r]| ==> rows[r][k].rowspan == 1 && rows[r][k].colspan == 1
  }

  /** In a table of 1x1 cells, a cell's grid column is its index in its row. */
  lemma PlainColumns(rows: seq<seq<Cell>>)
    requires PlainCells(rows)
    ensures forall r, k :: 0 <= r < |rows| && 0 <= k < |rows[r]| ==> ColumnOf(rows, r, k) == k
  {
    SingleRowLayouts(rows);
    forall r, k | 0 <= r < |rows| && 0 <= k < |rows[r]|
      ensures ColumnOf(rows, r, k) == k
    {
      PlainRowSum(rows[r][..k]);
    }
  }

  /** A model cell rendered as a cell of the given kind. */
  function Rendered(kind: CellKind, c: Cell): (v: ViewCell)
    ensures v.kind == kind && v.rowspan == c.rowspan && v.colspan == c.colspan && v.contents == c.contents
  {
    ViewCell(kind, c.rowspan, c.colspan, c.contents)
  }

  /** A row of one cell renders cell by cell, each with the kind its heading fact gives. */
  lemma OneCellRow(t: Table, r: nat, k0: CellKind)
    requires r < |t.rows| && |t.rows[r]| == 1
    requires IsHeadingCell(t, r, 0) <==> k0 == HeadingCell
    ensures ViewRow(t, r) == [Rendered(k0, t.rows[r][0])]
  {
  }

  /** A row of two cells renders cell by cell, each with the kind its heading fact gives. */
  lemma TwoCellRow(t: Table, r: nat, k0: CellKind, k1: CellKind)
    requires r < |t.rows| && |t.rows[r]| == 2
    requires IsHeadingCell(t, r, 0) <==> k0 == HeadingCell
    requires IsHeadingCell(t, r, 1) <==> k1 == HeadingCell
    ensures ViewRow(t, r) == [Rendered(k0, t.rows[r][0]), Rendered(k1, t.rows[r][1])]
  {
  }

  /** A row of three cells renders cell by cell, each with the kind its heading fact gives. */
  lemma ThreeCellRow(t: Table, r: nat, k0: CellKind, k1: CellKind, k2: CellKind)
    requires r < |t.rows| && |t.rows[r]| == 3
    requires IsHeadingCell(t, r, 0) <==> k0 == HeadingCell
    requires IsHeadingCell(t, r, 1) <==> k1 == HeadingCell
    requires IsHeadingCell(t, r, 2) <==> k2 == HeadingCell
    ensures ViewRow(t, r) == [Rendered(k0, t.rows[r][0]), Rendered(k1, t.rows[r][1]), Rendered(k2, t.rows[r][2])]
  {
  }

  /** A row of four cells renders cell by cell, each with the kind its heading fact gives. */
  lemma FourCellRow(t: Table, r: nat, k0: CellKind, k1: CellKind, k2: CellKind, k3: CellKind)
    requires r < |t.rows| && |t.rows[r]| == 4
    requires IsHeadingCell(t, r, 0) <==> k0 == HeadingCell
    requires IsHeadingCell(t, r, 1) <==> k1 == HeadingCell
    requires IsHeadingCell(t, r, 2) <==> k2 == HeadingCell
    requires IsHeadingCell(t, r, 3) <==> k3 == HeadingCell
    ensures ViewRow(t, r) == [Rendered(k0, t.rows[r][0]), Rendered(k1, t.rows[r][1]), Rendered(k2, t.rows[r][2]), Rendered(k3, t.rows[r][3])]
  {
  }

  /** A row of five cells renders cell by cell, each with the kind its heading fact gives. */
  lemma FiveCellRow(t: Table, r: nat, k0: CellKind, k1: CellKind, k2: CellKind, k3: CellKind, k4: CellKind)
    requires r < |t.rows| && |t.rows[r]| == 5
    requires IsHeadingCell(t, r, 0) <==> k0 == HeadingCell
    requires IsHeadingCell(t, r, 1) <==> k1 == HeadingCell
    requires IsHeadingCell(t, r, 2) <==> k2 == HeadingCell
    requires IsHeadingCell(t, r, 3) <==> k3 == HeadingCell
    requires IsHeadingCell(t, r, 4) <==> k4 == HeadingCell
    ensures ViewRow(t, r) == [Rendered(k0, t.rows[r][0]), Rendered(k1, t.rows[r][1]), Rendered(k2, t.rows[r][2]), Rendered(k3, t.rows[r][3]), Rendered(k4, t.rows[r][4])]
  {
  }

  /** Without heading rows the table renders as one body. */
  lemma BodyOnly(t: Table)
    requires t.headingRows == 0 && |t.rows| > 0
    ensures Downcast(t) == [ViewSection(Body, ViewRows(t, 0, |t.rows|))]
  {
  }

  /** With fewer heading rows than rows, as a head and a body. */
  lemma HeadAndBody(t: Table)
    requires 0 < t.headingRows < |t.rows|
    ensures Downcast(t) == [ViewSection(Head, ViewRows(t, 0, t.headingRows)), ViewSection(Body, ViewRows(t, t.headingRows, |t.rows|))]
  {
  }

  /** With at least as many heading rows as rows, as a head only. */
  lemma HeadOnly(t: Table)
    requires t.headingRows >= |t.rows| > 0
    ensures Downcast(t) == [ViewSection(Head, ViewRows(t, 0, |t.rows|))]
  {
  }

  lemma {:induction false} OneViewRows(t: Table, lo: nat)
    requires lo + 1 <= |t.rows|
    ensures ViewRows(t, lo, lo + 1) == [ViewRow(t, lo)]
  {
  }

  lemma {:induction false} TwoViewRows(t: Table, lo: nat)
    requires lo + 2 <= |t.rows|
    ensures ViewRows(t, lo, lo + 2) == [ViewRow(t, lo), ViewRow(t, lo + 1)]
  {
  }

  lemma {:induction false} ThreeViewRows(t: Table, lo: nat)
    requires lo + 3 <= |t.rows|
    ensures ViewRows(t, lo, lo + 3) == [ViewRow(t, lo), ViewRow(t, lo + 1), ViewRow(t, lo + 2)]
  {
  }

  lemma {:induction false} FourViewRows(t: Table, lo: nat)
    requires lo + 4 <= |t.rows|
    ensures ViewRows(t, lo, lo + 4) == [ViewRow(t, lo), ViewRow(t, lo + 1), ViewRow(t, lo + 2), ViewRow(t, lo + 3)]
  {
  }

  // ---------------------------------------------------------------------------------------------
  // tests/converters/downcast.js:59-129: the sections and heading cells of a new table.

  const Lone: Table := Table([[EmptyCell]], 0, 0)

  const LoneView: seq<ViewSection> := [
    ViewSection(Body, [[Td("")]])]

  lemma LoneRow0() ensures ViewRow(Lone, 0) == [Td("")]
  {
    OneCellRow(Lone, 0, D);
    assert Lone.rows[0] == [EmptyCell];
  }

  /** A table of one empty cell renders as a body with one data cell. */
  lemma LoneShown() ensures Downcast(Lone) == LoneView
  {
    BodyOnly(Lone);
    OneViewRows(Lone, 0);
    LoneRow0();
  }

  /** Two one-cell rows, the first a heading row. */
  const Column: Table := Table([
    [Plain("00")],
    [Plain("10")]], 1, 0)

  const ColumnView: seq<ViewSection> := [
    ViewSection(Head, [[Th("00")]]),
    ViewSection(Body, [[Td("10")]])]

  lemma ColumnRow0() ensures ViewRow(Column, 0) == [Th("00")]
  {
    OneCellRow(Column, 0, H);
    assert Column.rows[0] == [Plain("00")];
  }

  lemma ColumnRow1() ensures ViewRow(Column, 1) == [Td("10")]
  {
    OneCellRow(Column, 1, D);
    assert Column.rows[1] == [Plain("10")];
  }

  /** One heading row: a head with a heading cell, and a body. */
  lemma ColumnShown() ensures Downcast(Column) == ColumnView
  {
    HeadAndBody(Column);
    OneViewRows(Column, 0);
    OneViewRows(Column, 1);
    ColumnRow0();
    ColumnRow1();
  }

  const ColumnHead: Table := Table([
    [Plain("00")],
    [Plain("10")]], 2, 0)

  const ColumnHeadView: seq<ViewSection> := [
    ViewSection(Head, [
      [Th("00")],
      [Th("10")]])]

  lemma ColumnHeadRow0() ensures ViewRow(ColumnHead, 0) == [Th("00")]
  {
    OneCellRow(ColumnHead, 0, H);
    assert ColumnHead.rows[0] == [Plain("00")];
  }

  lemma ColumnHeadRow1() ensures ViewRow(ColumnHead, 1) == [Th("10")]
  {
    OneCellRow(ColumnHead, 1, H);
    assert ColumnHead.rows[1] == [Plain("10")];
  }

  /** Two heading rows in a table of two rows: a head and no body. */
  lemma ColumnHeadShown() ensures Downcast(ColumnHead) == ColumnHeadView
  {
    HeadOnly(ColumnHead);
    TwoViewRows(ColumnHead, 0);
    ColumnHeadRow0();
    ColumnHeadRow1();
  }

  const Corner: Table := Table([
    [Plain("00"), Plain("01"), Plain("02"), Plain("03")],
    [Plain("10"), Plain("11"), Plain("12"), Plain("13")]], 1, 3)

  lemma CornerColumns() ensures ColumnOf(Corner.rows, 1, 0) == 0 && ColumnOf(Corner.rows, 1, 1) == 1 && ColumnOf(Corner.rows, 1, 2) == 2 && ColumnOf(Corner.rows, 1, 3) == 3
  {
    PlainColumns(Corner.rows);
  }

  const CornerView: seq<ViewSection> := [
    ViewSection(Head, [[Th("00"), Th("01"), Th("02"), Th("03")]]),
    ViewSection(Body, [[Th("10"), Th("11"), Th("12"), Td("13")]])]

  lemma CornerRow0() ensures ViewRow(Corner, 0) == [Th("00"), Th("01"), Th("02"), Th("03")]
  {
    FourCellRow(Corner, 0, H, H, H, H);
    assert Corner.rows[0] == [Plain("00"), Plain("01"), Plain("02"), Plain("03")];
  }

  lemma CornerKinds1() ensures IsHeadingCell(Corner, 1, 0) && IsHeadingCell(Corner, 1, 1) && IsHeadingCell(Corner, 1, 2) && !IsHeadingCell(Corner, 1, 3)
  {
    CornerColumns();
  }

  lemma CornerRow1() ensures ViewRow(Corner, 1) == [Th("10"), Th("11"), Th("12"), Td("13")]
  {
    CornerKinds1();
    FourCellRow(Corner, 1, H, H, H, D);
    assert Corner.rows[1] == [Plain("10"), Plain("11"), Plain("12"), Plain("13")];
  }

  /** One heading row and three heading columns: the body row starts with three heading cells. */
  lemma CornerShown() ensures Downcast(Corner) == CornerView
  {
    HeadAndBody(Corner);
    OneViewRows(Corner, 0);
    OneViewRows(Corner, 1);
    CornerRow0();
    CornerRow1();
  }

  // ---------------------------------------------------------------------------------------------
  // tests/converters/downcast.js:244-314: heading columns, counted in grid columns.

  const TwoColumnsHead: Table := Table([
    [Plain("00"), Plain("01"), Plain("02")],
    [Plain("10"), Plain("11"), Plain("12")]], 0, 2)

  lemma TwoColumnsHeadColumns() ensures ColumnOf(TwoColumnsHead.rows, 0, 0) == 0 && ColumnOf(TwoColumnsHead.rows, 0, 1) == 1 && ColumnOf(TwoColumnsHead.rows, 0, 2) == 2 && ColumnOf(TwoColumnsHead.rows, 1, 0) == 0 && ColumnOf(TwoColumnsHead.rows, 1, 1) == 1 && ColumnOf(TwoColumnsHead.rows, 1, 2) == 2
  {
    PlainColumns(TwoColumnsHead.rows);
  }

  const TwoColumnsHeadView: seq<ViewSection> := [
    ViewSection(Body, [
      [Th("00"), Th("01"), Td("02")],
      [Th("10"), Th("11"), Td("12")]])]

  lemma TwoColumnsHeadKinds0() ensures IsHeadingCell(TwoColumnsHead, 0, 0) && IsHeadingCell(TwoColumnsHead, 0, 1) && !IsHeadingCell(TwoColumnsHead, 0, 2)
  {
    TwoColumnsHeadColumns();
  }

  lemma TwoColumnsHeadRow0() ensures ViewRow(TwoColumnsHead, 0) == [Th("00"), Th("01"), Td("02")]
  {
    TwoColumnsHeadKinds0();
    ThreeCellRow(TwoColumnsHead, 0, H, H, D);
    assert TwoColumnsHead.rows[0] == [Plain("00"), Plain("01"), Plain("02")];
  }

  lemma TwoColumnsHeadKinds1() ensures IsHeadingCell(TwoColumnsHead, 1, 0) && IsHeadingCell(TwoColumnsHead, 1, 1) && !IsHeadingCell(TwoColumnsHead, 1, 2)
  {
    TwoColumnsHeadColumns();
  }

  lemma TwoColumnsHeadRow1() ensures ViewRow(TwoColumnsHead, 1) == [Th("10"), Th("11"), Td("12")]
  {
    TwoColumnsHeadKinds1();
    ThreeCellRow(TwoColumnsHead, 1, H, H, D);
    assert TwoColumnsHead.rows[1] == [Plain("10"), Plain("11"), Plain("12")];
  }

  /** Two heading columns: the first two cells of each row. */
  lemma TwoColumnsHeadShown() ensures Downcast(TwoColumnsHead) == TwoColumnsHeadView
  {
    BodyOnly(TwoColumnsHead);
    TwoViewRows(TwoColumnsHead, 0);
    TwoColumnsHeadRow0();
    TwoColumnsHeadRow1();
  }

  /** The first cell of the second row spans two columns. */
  const Colspan: Table := Table([
    [Plain("00"), Plain("01"), Plain("02"), Plain("03")],
    [Cell(1, 2, "10"), Plain("12"), Plain("13")]], 0, 3)

  // `Cs` abbreviates the table `Colspan` in the names below.
  const CsL0 := Placement([Slot(0, 0, 1, 1), Slot(0, 1, 1, 1), Slot(0, 2, 1, 1), Slot(0, 3, 1, 1)], {0, 1, 2, 3}, 4)
  const CsL1 := Placement([Slot(1, 0, 1, 2), Slot(1, 2, 1, 1), Slot(1, 3, 1, 1)], {0, 1, 2, 3}, 4)

  lemma CsPlace0From3()
    ensures Place(0, [Plain("03")], {0, 1, 2}, 3) == Placement([Slot(0, 3, 1, 1)], {0, 1, 2, 3}, 4)
  {
    assert [Plain("03")][1..] == [];
    assert Skip({0, 1, 2}, 3) == 3 && {0, 1, 2} + Columns(3, 1) == {0, 1, 2, 3};
  }

  lemma CsPlace0From2()
    ensures Place(0, [Plain("02"), Plain("03")], {0, 1}, 2) == Placement([Slot(0, 2, 1, 1), Slot(0, 3, 1, 1)], {0, 1, 2, 3}, 4)
  {
    CsPlace0From3();
    assert [Plain("02"), Plain("03")][1..] == [Plain("03")];
    assert Skip({0, 1}, 2) == 2 && {0, 1} + Columns(2, 1) == {0, 1, 2};
    assert [Slot(0, 2, 1, 1)] + [Slot(0, 3, 1, 1)] == [Slot(0, 2, 1, 1), Slot(0, 3, 1, 1)];
  }

  lemma CsPlace0From1()
    ensures Place(0, [Plain("01"), Plain("02"), Plain("03")], {0}, 1) == Placement([Slot(0, 1, 1, 1), Slot(0, 2, 1, 1), Slot(0, 3, 1, 1)], {0, 1, 2, 3}, 4)
  {
    CsPlace0From2();
    assert [Plain("01"), Plain("02"), Plain("03")][1..] == [Plain("02"), Plain("03")];
    assert Skip({0}, 1) == 1 && {0} + Columns(1, 1) == {0, 1};
    assert [Slot(0, 1, 1, 1)] + [Slot(0, 2, 1, 1), Slot(0, 3, 1, 1)] == [Slot(0, 1, 1, 1), Slot(0, 2, 1, 1), Slot(0, 3, 1, 1)];
  }

  lemma CsPlace0() ensures Place(0, Colspan.rows[0], {}, 0) == CsL0
  {
    CsPlace0From1();
    assert Colspan.rows[0] == [Plain("00"), Plain("01"), Plain("02"), Plain("03")];
    assert [Plain("00"), Plain("01"), Plain("02"), Plain("03")][1..] == [Plain("01"), Plain("02"), Plain("03")];
    assert Skip({}, 0) == 0 && {} + Columns(0, 1) == {0};
    assert [Slot(0, 0, 1, 1)] + [Slot(0, 1, 1, 1), Slot(0, 2, 1, 1), Slot(0, 3, 1, 1)] == [Slot(0, 0, 1, 1), Slot(0, 1, 1, 1), Slot(0, 2, 1, 1), Slot(0, 3, 1, 1)];
  }

  lemma CsPlace1From2()
    ensures Place(1, [Plain("13")], {0, 1, 2}, 3) == Placement([Slot(1, 3, 1, 1)], {0, 1, 2, 3}, 4)
  {
    assert [Plain("13")][1..] == [];
    assert Skip({0, 1, 2}, 3) == 3 && {0, 1, 2} + Columns(3, 1) == {0, 1, 2, 3};
  }

  lemma CsPlace1From1()
    ensures Place(1, [Plain("12"), Plain("13")], {0, 1}, 1) == Placement([Slot(1, 2, 1, 1), Slot(1, 3, 1, 1)], {0, 1, 2, 3}, 4)
  {
    CsPlace1From2();
    assert [Plain("12"), Plain("13")][1..] == [Plain("13")];
    SkipAt({0, 1}, 1, 2);
    assert {0, 1} + Columns(2, 1) == {0, 1, 2};
    assert [Slot(1, 2, 1, 1)] + [Slot(1, 3, 1, 1)] == [Slot(1, 2, 1, 1), Slot(1, 3, 1, 1)];
  }

  lemma CsPlace1() ensures Place(1, Colspan.rows[1], {}, 0) == CsL1
  {
    CsPlace1From1();
    assert Colspan.rows[1] == [Cell(1, 2, "10"), Plain("12"), Plain("13")];
    assert [Cell(1, 2, "10"), Plain("12"), Plain("13")][1..] == [Plain("12"), Plain("13")];
    assert Skip({}, 0) == 0 && {} + Columns(0, 2) == {0, 1};
    assert [Slot(1, 0, 1, 2)] + [Slot(1, 2, 1, 1), Slot(1, 3, 1, 1)] == [Slot(1, 0, 1, 2), Slot(1, 2, 1, 1), Slot(1, 3, 1, 1)];
  }

  lemma CsCarried1() ensures CarriedByRow(CsL0.slots, 1) == {}
  {
    assert CsL0.slots[1..][1..][1..][1..] == [];
  }

  lemma CsLayouts()
    ensures Layouts(Colspan.rows)[0] == CsL0 && Layouts(Colspan.rows)[1] == CsL1
  {
    var rows := Colspan.rows;
    FirstRow(rows);
    CsPlace0();
    SecondRow(rows);
    CsCarried1();
    CsPlace1();
  }

  lemma CsColumns()
    ensures ColumnOf(Colspan.rows, 0, 0) == 0 && ColumnOf(Colspan.rows, 0, 1) == 1 && ColumnOf(Colspan.rows, 0, 2) == 2 && ColumnOf(Colspan.rows, 0, 3) == 3 && ColumnOf(Colspan.rows, 1, 0) == 0 && ColumnOf(Colspan.rows, 1, 1) == 2 && ColumnOf(Colspan.rows, 1, 2) == 3
  {
    CsLayouts();
  }

  const CsView: seq<ViewSection> := [
    ViewSection(Body, [
      [Th("00"), Th("01"), Th("02"), Td("03")],
      [ViewCell(H, 1, 2, "10"), Th("12"), Td("13")]])]

  lemma CsKinds0() ensures IsHeadingCell(Colspan, 0, 0) && IsHeadingCell(Colspan, 0, 1) && IsHeadingCell(Colspan, 0, 2) && !IsHeadingCell(Colspan, 0, 3)
  {
    CsColumns();
  }

  lemma CsRow0() ensures ViewRow(Colspan, 0) == [Th("00"), Th("01"), Th("02"), Td("03")]
  {
    CsKinds0();
    FourCellRow(Colspan, 0, H, H, H, D);
    assert Colspan.rows[0] == [Plain("00"), Plain("01"), Plain("02"), Plain("03")];
  }

  lemma CsKinds1() ensures IsHeadingCell(Colspan, 1, 0) && IsHeadingCell(Colspan, 1, 1) && !IsHeadingCell(Colspan, 1, 2)
  {
    CsColumns();
  }

  lemma CsRow1() ensures ViewRow(Colspan, 1) == [ViewCell(H, 1, 2, "10"), Th("12"), Td("13")]
  {
    CsKinds1();
    ThreeCellRow(Colspan, 1, H, H, D);
    assert Colspan.rows[1] == [Cell(1, 2, "10"), Plain("12"), Plain("13")];
  }

  /** `12` follows a two-column cell, so it starts in the third column and is a heading cell. */
  lemma CsShown() ensures Downcast(Colspan) == CsView
  {
    BodyOnly(Colspan);
    TwoViewRows(Colspan, 0);
    CsRow0();
    CsRow1();
  }

  /** `00` and `02` reach down into the rows below them, and so does `20`, which also spans two columns. */
  const Spans: Table := Table([
    [Cell(2, 1, "00"), Plain("01"), Cell(3, 1, "02"), Plain("03")],
    [Plain("11"), Plain("13")],
    [Cell(2, 2, "20"), Plain("23")],
    [Plain("32"), Plain("33")]], 0, 3)

  // `Sp` abbreviates the table `Spans` in the names below.
  const SpL0 := Placement([Slot(0, 0, 2, 1), Slot(0, 1, 1, 1), Slot(0, 2, 3, 1), Slot(0, 3, 1, 1)], {0, 1, 2, 3}, 4)
  const SpL1 := Placement([Slot(1, 1, 1, 1), Slot(1, 3, 1, 1)], {0, 1, 2, 3}, 4)
  const SpL2 := Placement([Slot(2, 0, 2, 2), Slot(2, 3, 1, 1)], {0, 1, 2, 3}, 4)
  const SpL3 := Placement([Slot(3, 2, 1, 1), Slot(3, 3, 1, 1)], {0, 1, 2, 3}, 4)

  lemma SpPlace0From3()
    ensures Place(0, [Plain("03")], {0, 1, 2}, 3) == Placement([Slot(0, 3, 1, 1)], {0, 1, 2, 3}, 4)
  {
    assert [Plain("03")][1..] == [];
    assert Skip({0, 1, 2}, 3) == 3 && {0, 1, 2} + Columns(3, 1) == {0, 1, 2, 3};
  }

  lemma SpPlace0From2()
    ensures Place(0, [Cell(3, 1, "02"), Plain("03")], {0, 1}, 2) == Placement([Slot(0, 2, 3, 1), Slot(0, 3, 1, 1)], {0, 1, 2, 3}, 4)
  {
    SpPlace0From3();
    assert [Cell(3, 1, "02"), Plain("03")][1..] == [Plain("03")];
    assert Skip({0, 1}, 2) == 2 && {0, 1} + Columns(2, 1) == {0, 1, 2};
    assert [Slot(0, 2, 3, 1)] + [Slot(0, 3, 1, 1)] == [Slot(0, 2, 3, 1), Slot(0, 3, 1, 1)];
  }

  lemma SpPlace0From1()
    ensures Place(0, [Plain("01"), Cell(3, 1, "02"), Plain("03")], {0}, 1) == Placement([Slot(0, 1, 1, 1), Slot(0, 2, 3, 1), Slot(0, 3, 1, 1)], {0, 1, 2, 3}, 4)
  {
    SpPlace0From2();
    assert [Plain("01"), Cell(3, 1, "02"), Plain("03")][1..] == [Cell(3, 1, "02"), Plain("03")];
    assert Skip({0}, 1) == 1 && {0} + Columns(1, 1) == {0, 1};
    assert [Slot(0, 1, 1, 1)] + [Slot(0, 2, 3, 1), Slot(0, 3, 1, 1)] == [Slot(0, 1, 1, 1), Slot(0, 2, 3, 1), Slot(0, 3, 1, 1)];
  }

  lemma SpPlace0() ensures Place(0, Spans.rows[0], {}, 0) == SpL0
  {
    SpPlace0From1();
    assert Spans.rows[0] == [Cell(2, 1, "00"), Plain("01"), Cell(3, 1, "02"), Plain("03")];
    assert [Cell(2, 1, "00"), Plain("01"), Cell(3, 1, "02"), Plain("03")][1..] == [Plain("01"), Cell(3, 1, "02"), Plain("03")];
    assert Skip({}, 0) == 0 && {} + Columns(0, 1) == {0};
    assert [Slot(0, 0, 2, 1)] + [Slot(0, 1, 1, 1), Slot(0, 2, 3, 1), Slot(0, 3, 1, 1)] == [Slot(0, 0, 2, 1), Slot(0, 1, 1, 1), Slot(0, 2, 3, 1), Slot(0, 3, 1, 1)];
  }

  lemma SpPlace1() ensures Place(1, Spans.rows[1], {0, 2}, 0) == SpL1
  {
    var row := Spans.rows[1];
    assert row[1..] == [Plain("13")] && row[1..][1..] == [];
    SkipAt({0, 1, 2}, 2, 3);
    assert {0, 1, 2} + Columns(3, 1) == {0, 1, 2, 3};
    assert Place(1, row[1..], {0, 1, 2}, 2) == Placement([Slot(1, 3, 1, 1)], {0, 1, 2, 3}, 4);
    SkipAt({0, 2}, 0, 1);
    assert {0, 2} + Columns(1, 1) == {0, 1, 2};
  }

  lemma SpPlace2() ensures Place(2, Spans.rows[2], {2}, 0) == SpL2
  {
    var row := Spans.rows[2];
    assert row[1..] == [Plain("23")] && row[1..][1..] == [];
    SkipAt({0, 1, 2}, 1, 3);
    assert {0, 1, 2} + Columns(3, 1) == {0, 1, 2, 3};
    assert Place(2, row[1..], {0, 1, 2}, 1) == Placement([Slot(2, 3, 1, 1)], {0, 1, 2, 3}, 4);
    assert Skip({2}, 0) == 0 && {2} + Columns(0, 2) == {0, 1, 2};
  }

  lemma SpPlace3() ensures Place(3, Spans.rows[3], {0, 1}, 0) == SpL3
  {
    var row := Spans.rows[3];
    assert row[1..] == [Plain("33")] && row[1..][1..] == [];
    assert Skip({0, 1, 2}, 3) == 3 && {0, 1, 2} + Columns(3, 1) == {0, 1, 2, 3};
    assert Place(3, row[1..], {0, 1, 2}, 3) == Placement([Slot(3, 3, 1, 1)], {0, 1, 2, 3}, 4);
    SkipAt({0, 1}, 0, 2);
    assert {0, 1} + Columns(2, 1) == {0, 1, 2};
  }

  lemma SpCarried1() ensures CarriedByRow(SpL0.slots, 1) == {0, 2}
  {
    assert SpL0.slots[1..][1..][1..][1..] == [];
    assert Columns(0, 1) == {0} && Columns(2, 1) == {2};
  }

  lemma SpCarried2() ensures CarriedByRow(SpL0.slots, 2) + CarriedByRow(SpL1.slots, 2) == {2}
  {
    assert SpL0.slots[1..][1..][1..][1..] == [] && SpL1.slots[1..][1..] == [];
    assert Columns(2, 1) == {2};
  }

  lemma SpCarried3() ensures CarriedByRow(SpL0.slots, 3) + CarriedByRow(SpL1.slots, 3) + CarriedByRow(SpL2.slots, 3) == {0, 1}
  {
    assert SpL0.slots[1..][1..][1..][1..] == [] && SpL1.slots[1..][1..] == [] && SpL2.slots[1..][1..] == [];
    assert Columns(0, 2) == {0, 1};
  }

  lemma SpLayouts()
    ensures Layouts(Spans.rows)[0] == SpL0 && Layouts(Spans.rows)[1] == SpL1 && Layouts(Spans.rows)[2] == SpL2 && Layouts(Spans.rows)[3] == SpL3
  {
    var rows := Spans.rows;
    FirstRow(rows);
    SpPlace0();
    SecondRow(rows);
    SpCarried1();
    SpPlace1();
    ThirdRow(rows);
    SpCarried2();
    SpPlace2();
    FourthRow(rows);
    SpCarried3();
    SpPlace3();
  }

  lemma SpColumns()
    ensures ColumnOf(Spans.rows, 0, 0) == 0 && ColumnOf(Spans.rows, 0, 1) == 1 && ColumnOf(Spans.rows, 0, 2) == 2 && ColumnOf(Spans.rows, 0, 3) == 3 && ColumnOf(Spans.rows, 1, 0) == 1 && ColumnOf(Spans.rows, 1, 1) == 3 && ColumnOf(Spans.rows, 2, 0) == 0 && ColumnOf(Spans.rows, 2, 1) == 3 && ColumnOf(Spans.rows, 3, 0) == 2 && ColumnOf(Spans.rows, 3, 1) == 3
  {
    SpLayouts();
  }

  const SpView: seq<ViewSection> := [
    ViewSection(Body, [
      [ViewCell(H, 2, 1, "00"), Th("01"), ViewCell(H, 3, 1, "02"), Td("03")],
      [Th("11"), Td("13")],
      [ViewCell(H, 2, 2, "20"), Td("23")],
      [Th("32"), Td("33")]])]

  lemma SpKinds0() ensures IsHeadingCell(Spans, 0, 0) && IsHeadingCell(Spans, 0, 1) && IsHeadingCell(Spans, 0, 2) && !IsHeadingCell(Spans, 0, 3)
  {
    SpColumns();
  }

  lemma SpRow0() ensures ViewRow(Spans, 0) == [ViewCell(H, 2, 1, "00"), Th("01"), ViewCell(H, 3, 1, "02"), Td("03")]
  {
    SpKinds0();
    FourCellRow(Spans, 0, H, H, H, D);
    assert Spans.rows[0] == [Cell(2, 1, "00"), Plain("01"), Cell(3, 1, "02"), Plain("03")];
  }

  lemma SpKinds1() ensures IsHeadingCell(Spans, 1, 0) && !IsHeadingCell(Spans, 1, 1)
  {
    SpColumns();
  }

  lemma SpRow1() ensures ViewRow(Spans, 1) == [Th("11"), Td("13")]
  {
    SpKinds1();
    TwoCellRow(Spans, 1, H, D);
    assert Spans.rows[1] == [Plain("11"), Plain("13")];
  }

  lemma SpKinds2() ensures IsHeadingCell(Spans, 2, 0) && !IsHeadingCell(Spans, 2, 1)
  {
    SpColumns();
  }

  lemma SpRow2() ensures ViewRow(Spans, 2) == [ViewCell(H, 2, 2, "20"), Td("23")]
  {
    SpKinds2();
    TwoCellRow(Spans, 2, H, D);
    assert Spans.rows[2] == [Cell(2, 2, "20"), Plain("23")];
  }

  lemma SpKinds3() ensures IsHeadingCell(Spans, 3, 0) && !IsHeadingCell(Spans, 3, 1)
  {
    SpColumns();
  }

  lemma SpRow3() ensures ViewRow(Spans, 3) == [Th("32"), Td("33")]
  {
    SpKinds3();
    TwoCellRow(Spans, 3, H, D);
    assert Spans.rows[3] == [Plain("32"), Plain("33")];
  }

  /** `11` starts in column 1 and `32` in column 2, both heading columns; `13`, `23` and `33` start in column 3. */
  lemma SpShown() ensures Downcast(Spans) == SpView
  {
    BodyOnly(Spans);
    FourViewRows(Spans, 0);
    SpRow0();
    SpRow1();
    SpRow2();
    SpRow3();
  }

  // ---------------------------------------------------------------------------------------------
  // tests/converters/downcast.js:351-509: rows inserted into the table, each with its cells.

  const Pair: Table := Table([[Plain("00"), Plain("01")]], 0, 0)

  const PairRow: Table := Table([
    [Plain("00"), Plain("01")],
    [EmptyCell, EmptyCell]], 0, 0)

  const PairRows: Table := Table([
    [Plain("00"), Plain("01")],
    [EmptyCell, EmptyCell],
    [EmptyCell, EmptyCell]], 0, 0)

  lemma PairRowInserted() ensures RowInserted(Pair.rows, 1, [EmptyCell, EmptyCell]) == PairRow.rows
  {
    var out := RowInserted(Pair.rows, 1, [EmptyCell, EmptyCell]);
    assert out[0] == PairRow.rows[0] && out[1] == PairRow.rows[1];
  }

  lemma PairRowRowInserted() ensures RowInserted(PairRow.rows, 2, [EmptyCell, EmptyCell]) == PairRows.rows
  {
    var out := RowInserted(PairRow.rows, 2, [EmptyCell, EmptyCell]);
    assert out[0] == PairRows.rows[0] && out[1] == PairRows.rows[1] && out[2] == PairRows.rows[2];
  }

  // `Pr` abbreviates the table `PairRow` in the names below.
  const PrView: seq<ViewSection> := [
    ViewSection(Body, [
      [Td("00"), Td("01")],
      [Td(""), Td("")]])]

  lemma PrRow0() ensures ViewRow(PairRow, 0) == [Td("00"), Td("01")]
  {
    TwoCellRow(PairRow, 0, D, D);
    assert PairRow.rows[0] == [Plain("00"), Plain("01")];
  }

  lemma PrRow1() ensures ViewRow(PairRow, 1) == [Td(""), Td("")]
  {
    TwoCellRow(PairRow, 1, D, D);
    assert PairRow.rows[1] == [EmptyCell, EmptyCell];
  }

  /** The new row renders below the first one. */
  lemma PrShown() ensures Downcast(PairRow) == PrView
  {
    BodyOnly(PairRow);
    TwoViewRows(PairRow, 0);
    PrRow0();
    PrRow1();
  }

  /** A row of two empty cells is appended. */
  method InsertRowAtEnd() returns (v: seq<ViewSection>)
    ensures v == PrView
  {
    var m := new TableModel(Pair);
    PairRowInserted();
    m.InsertRow(1, [EmptyCell, EmptyCell]);
    PrShown();
    v := Downcast(m.Value());
  }

  // `Prs` abbreviates the table `PairRows` in the names below.
  const PrsView: seq<ViewSection> := [
    ViewSection(Body, [
      [Td("00"), Td("01")],
      [Td(""), Td("")],
      [Td(""), Td("")]])]

  lemma PrsRow0() ensures ViewRow(PairRows, 0) == [Td("00"), Td("01")]
  {
    TwoCellRow(PairRows, 0, D, D);
    assert PairRows.rows[0] == [Plain("00"), Plain("01")];
  }

  lemma PrsRow1() ensures ViewRow(PairRows, 1) == [Td(""), Td("")]
  {
    TwoCellRow(PairRows, 1, D, D);
    assert PairRows.rows[1] == [EmptyCell, EmptyCell];
  }

  lemma PrsRow2() ensures ViewRow(PairRows, 2) == [Td(""), Td("")]
  {
    TwoCellRow(PairRows, 2, D, D);
    assert PairRows.rows[2] == [EmptyCell, EmptyCell];
  }

  /** Both new rows render, in order. */
  lemma PrsShown() ensures Downcast(PairRows) == PrsView
  {
    BodyOnly(PairRows);
    ThreeViewRows(PairRows, 0);
    PrsRow0();
    PrsRow1();
    PrsRow2();
  }

  /** A second row of two empty cells is appended after the first. */
  method InsertRowsAtEnd() returns (v: seq<ViewSection>)
    ensures v == PrsView
  {
    var m := new TableModel(Pair);
    PairRowInserted();
    m.InsertRow(1, [EmptyCell, EmptyCell]);
    PairRowRowInserted();
    m.InsertRow(2, [EmptyCell, EmptyCell]);
    PrsShown();
    v := Downcast(m.Value());
  }

  const Ladder: Table := Table([
    [Plain("00"), Plain("01")],
    [Plain("21"), Plain("22")],
    [Plain("31"), Plain("32")]], 0, 0)

  const LadderRow: Table := Table([
    [Plain("00"), Plain("01")],
    [EmptyCell, EmptyCell],
    [Plain("21"), Plain("22")],
    [Plain("31"), Plain("32")]], 0, 0)

  lemma LadderRowInserted() ensures RowInserted(Ladder.rows, 1, [EmptyCell, EmptyCell]) == LadderRow.rows
  {
    var out := RowInserted(Ladder.rows, 1, [EmptyCell, EmptyCell]);
    assert out[0] == LadderRow.rows[0] && out[1] == LadderRow.rows[1] && out[2] == LadderRow.rows[2] && out[3] == LadderRow.rows[3];
  }

  // `Lr` abbreviates the table `LadderRow` in the names below.
  const LrView: seq<ViewSection> := [
    ViewSection(Body, [
      [Td("00"), Td("01")],
      [Td(""), Td("")],
      [Td("21"), Td("22")],
      [Td("31"), Td("32")]])]

  lemma LrRow0() ensures ViewRow(LadderRow, 0) == [Td("00"), Td("01")]
  {
    TwoCellRow(LadderRow, 0, D, D);
    assert LadderRow.rows[0] == [Plain("00"), Plain("01")];
  }

  lemma LrRow1() ensures ViewRow(LadderRow, 1) == [Td(""), Td("")]
  {
    TwoCellRow(LadderRow, 1, D, D);
    assert LadderRow.rows[1] == [EmptyCell, EmptyCell];
  }

  lemma LrRow2() ensures ViewRow(LadderRow, 2) == [Td("21"), Td("22")]
  {
    TwoCellRow(LadderRow, 2, D, D);
    assert LadderRow.rows[2] == [Plain("21"), Plain("22")];
  }

  lemma LrRow3() ensures ViewRow(LadderRow, 3) == [Td("31"), Td("32")]
  {
    TwoCellRow(LadderRow, 3, D, D);
    assert LadderRow.rows[3] == [Plain("31"), Plain("32")];
  }

  /** The new row renders at its index, before the rows after it. */
  lemma LrShown() ensures Downcast(LadderRow) == LrView
  {
    BodyOnly(LadderRow);
    FourViewRows(LadderRow, 0);
    LrRow0();
    LrRow1();
    LrRow2();
    LrRow3();
  }

  /** A row of two empty cells is inserted at index 1. */
  method InsertRowInMiddle() returns (v: seq<ViewSection>)
    ensures v == LrView
  {
    var m := new TableModel(Ladder);
    LadderRowInserted();
    m.InsertRow(1, [EmptyCell, EmptyCell]);
    LrShown();
    v := Downcast(m.Value());
  }

  /** `00` spans three rows of a table that has two. */
  const Spire: Table := Table([
    [Cell(3, 1, "00"), Plain("01")],
    [Plain("22")]], 0, 0)

  const SpireGrown: Table := Table([
    [Cell(3, 1, "00"), Plain("01")],
    [Plain("22")],
    [EmptyCell]], 0, 0)

  lemma SpireRowInserted() ensures RowInserted(Spire.rows, 2, [EmptyCell]) == SpireGrown.rows
  {
    var out := RowInserted(Spire.rows, 2, [EmptyCell]);
    assert out[0] == SpireGrown.rows[0] && out[1] == SpireGrown.rows[1] && out[2] == SpireGrown.rows[2];
  }

  // `Sg` abbreviates the table `SpireGrown` in the names below.
  const SgView: seq<ViewSection> := [
    ViewSection(Body, [
      [ViewCell(D, 3, 1, "00"), Td("01")],
      [Td("22")],
      [Td("")]])]

  lemma SgRow0() ensures ViewRow(SpireGrown, 0) == [ViewCell(D, 3, 1, "00"), Td("01")]
  {
    TwoCellRow(SpireGrown, 0, D, D);
    assert SpireGrown.rows[0] == [Cell(3, 1, "00"), Plain("01")];
  }

  lemma SgRow1() ensures ViewRow(SpireGrown, 1) == [Td("22")]
  {
    OneCellRow(SpireGrown, 1, D);
    assert SpireGrown.rows[1] == [Plain("22")];
  }

  lemma SgRow2() ensures ViewRow(SpireGrown, 2) == [Td("")]
  {
    OneCellRow(SpireGrown, 2, D);
    assert SpireGrown.rows[2] == [EmptyCell];
  }

  /** The cell of the new row renders under the row that holds `22`. */
  lemma SgShown() ensures Downcast(SpireGrown) == SgView
  {
    BodyOnly(SpireGrown);
    ThreeViewRows(SpireGrown, 0);
    SgRow0();
    SgRow1();
    SgRow2();
  }

  /** A row of one empty cell is appended beside the cell spanning three rows. */
  method InsertRowBesideSpan() returns (v: seq<ViewSection>)
    ensures v == SgView
  {
    var m := new TableModel(Spire);
    SpireRowInserted();
    m.InsertRow(2, [EmptyCell]);
    SgShown();
    v := Downcast(m.Value());
  }

  // ---------------------------------------------------------------------------------------------
  // tests/converters/downcast.js:511-538: two rows inserted under a cell spanning three rows, with
  // one heading column.

  /** `00` spans three rows of a table that has two. */
  const Tower: Table := Table([
    [Cell(3, 1, "00"), Plain("01")],
    [Plain("22")]], 0, 1)

  const TowerGrown: Table := Table([
    [Cell(3, 1, "00"), Plain("01")],
    [Plain("22")],
    [EmptyCell]], 0, 1)

  const TowerFull: Table := Table([
    [Cell(3, 1, "00"), Plain("01")],
    [Plain("22")],
    [EmptyCell],
    [EmptyCell, EmptyCell]], 0, 1)

  lemma TowerRowInserted() ensures RowInserted(Tower.rows, 2, [EmptyCell]) == TowerGrown.rows
  {
    var out := RowInserted(Tower.rows, 2, [EmptyCell]);
    assert out[0] == TowerGrown.rows[0] && out[1] == TowerGrown.rows[1] && out[2] == TowerGrown.rows[2];
  }

  lemma TowerGrownRowInserted() ensures RowInserted(TowerGrown.rows, 3, [EmptyCell, EmptyCell]) == TowerFull.rows
  {
    var out := RowInserted(TowerGrown.rows, 3, [EmptyCell, EmptyCell]);
    assert out[0] == TowerFull.rows[0] && out[1] == TowerFull.rows[1] && out[2] == TowerFull.rows[2] && out[3] == TowerFull.rows[3];
  }

  // `Tw` abbreviates the table `TowerFull` in the names below.
  const TwL0 := Placement([Slot(0, 0, 3, 1), Slot(0, 1, 1, 1)], {0, 1}, 2)
  const TwL1 := Placement([Slot(1, 1, 1, 1)], {0, 1}, 2)
  const TwL2 := Placement([Slot(2, 1, 1, 1)], {0, 1}, 2)
  const TwL3 := Placement([Slot(3, 0, 1, 1), Slot(3, 1, 1, 1)], {0, 1}, 2)

  lemma TwPlace0() ensures Place(0, TowerFull.rows[0], {}, 0) == TwL0
  {
    var row := TowerFull.rows[0];
    assert row[1..] == [Plain("01")] && row[1..][1..] == [];
    assert Skip({0}, 1) == 1 && {0} + Columns(1, 1) == {0, 1};
    assert Place(0, row[1..], {0}, 1) == Placement([Slot(0, 1, 1, 1)], {0, 1}, 2);
    assert Skip({}, 0) == 0 && {} + Columns(0, 1) == {0};
  }

  lemma TwPlace1() ensures Place(1, TowerFull.rows[1], {0}, 0) == TwL1
  {
    var row := TowerFull.rows[1];
    assert row[1..] == [];
    SkipAt({0}, 0, 1);
    assert {0} + Columns(1, 1) == {0, 1};
  }

  lemma TwPlace2() ensures Place(2, TowerFull.rows[2], {0}, 0) == TwL2
  {
    var row := TowerFull.rows[2];
    assert row[1..] == [];
    SkipAt({0}, 0, 1);
    assert {0} + Columns(1, 1) == {0, 1};
  }

  lemma TwPlace3() ensures Place(3, TowerFull.rows[3], {}, 0) == TwL3
  {
    var row := TowerFull.rows[3];
    assert row[1..] == [EmptyCell] && row[1..][1..] == [];
    assert Skip({0}, 1) == 1 && {0} + Columns(1, 1) == {0, 1};
    assert Place(3, row[1..], {0}, 1) == Placement([Slot(3, 1, 1, 1)], {0, 1}, 2);
    assert Skip({}, 0) == 0 && {} + Columns(0, 1) == {0};
  }

  lemma TwCarried1() ensures CarriedByRow(TwL0.slots, 1) == {0}
  {
    assert TwL0.slots[1..][1..] == [];
    assert Columns(0, 1) == {0};
  }

  lemma TwCarried2() ensures CarriedByRow(TwL0.slots, 2) + CarriedByRow(TwL1.slots, 2) == {0}
  {
    assert TwL0.slots[1..][1..] == [] && TwL1.slots[1..] == [];
    assert Columns(0, 1) == {0};
  }

  lemma TwCarried3() ensures CarriedByRow(TwL0.slots, 3) + CarriedByRow(TwL1.slots, 3) + CarriedByRow(TwL2.slots, 3) == {}
  {
    assert TwL0.slots[1..][1..] == [] && TwL1.slots[1..] == [] && TwL2.slots[1..] == [];
  }

  lemma TwLayouts()
    ensures Layouts(TowerFull.rows)[0] == TwL0 && Layouts(TowerFull.rows)[1] == TwL1 && Layouts(TowerFull.rows)[2] == TwL2 && Layouts(TowerFull.rows)[3] == TwL3
  {
    var rows := TowerFull.rows;
    FirstRow(rows);
    TwPlace0();
    SecondRow(rows);
    TwCarried1();
    TwPlace1();
    ThirdRow(rows);
    TwCarried2();
    TwPlace2();
    FourthRow(rows);
    TwCarried3();
    TwPlace3();
  }

  lemma TwColumns()
    ensures ColumnOf(TowerFull.rows, 0, 0) == 0 && ColumnOf(TowerFull.rows, 0, 1) == 1 && ColumnOf(TowerFull.rows, 1, 0) == 1 && ColumnOf(TowerFull.rows, 2, 0) == 1 && ColumnOf(TowerFull.rows, 3, 0) == 0 && ColumnOf(TowerFull.rows, 3, 1) == 1
  {
    TwLayouts();
  }

  const TwView: seq<ViewSection> := [
    ViewSection(Body, [
      [ViewCell(H, 3, 1, "00"), Td("01")],
      [Td("22")],
      [Td("")],
      [Th(""), Td("")]])]

  lemma TwKinds0() ensures IsHeadingCell(TowerFull, 0, 0) && !IsHeadingCell(TowerFull, 0, 1)
  {
    TwColumns();
  }

  lemma TwRow0() ensures ViewRow(TowerFull, 0) == [ViewCell(H, 3, 1, "00"), Td("01")]
  {
    TwKinds0();
    TwoCellRow(TowerFull, 0, H, D);
    assert TowerFull.rows[0] == [Cell(3, 1, "00"), Plain("01")];
  }

  lemma TwKinds1() ensures !IsHeadingCell(TowerFull, 1, 0)
  {
    TwColumns();
  }

  lemma TwRow1() ensures ViewRow(TowerFull, 1) == [Td("22")]
  {
    TwKinds1();
    OneCellRow(TowerFull, 1, D);
    assert TowerFull.rows[1] == [Plain("22")];
  }

  lemma TwKinds2() ensures !IsHeadingCell(TowerFull, 2, 0)
  {
    TwColumns();
  }

  lemma TwRow2() ensures ViewRow(TowerFull, 2) == [Td("")]
  {
    TwKinds2();
    OneCellRow(TowerFull, 2, D);
    assert TowerFull.rows[2] == [EmptyCell];
  }

  lemma TwKinds3() ensures IsHeadingCell(TowerFull, 3, 0) && !IsHeadingCell(TowerFull, 3, 1)
  {
    TwColumns();
  }

  lemma TwRow3() ensures ViewRow(TowerFull, 3) == [Th(""), Td("")]
  {
    TwKinds3();
    TwoCellRow(TowerFull, 3, H, D);
    assert TowerFull.rows[3] == [EmptyCell, EmptyCell];
  }

  /** The third row still has column 0 taken by `00`; the fourth starts in column 0 again. */
  lemma TwShown() ensures Downcast(TowerFull) == TwView
  {
    BodyOnly(TowerFull);
    FourViewRows(TowerFull, 0);
    TwRow0();
    TwRow1();
    TwRow2();
    TwRow3();
  }

  /** A one-cell row and a two-cell row are added: only the first cell of the last row is in the heading column. */
  method InsertRowsUnderSpan() returns (v: seq<ViewSection>)
    ensures v == TwView
  {
    var m := new TableModel(Tower);
    TowerRowInserted();
    m.InsertRow(2, [EmptyCell]);
    TowerGrownRowInserted();
    m.InsertRow(3, [EmptyCell, EmptyCell]);
    TwShown();
    v := Downcast(m.Value());
  }

  // ---------------------------------------------------------------------------------------------
  // tests/converters/downcast.js:589-643: a cell inserted into a row goes to its index in the row,
  // and the cells after it move right by its width.

  const PairWidened: Table := Table([[Plain("00"), EmptyCell, Plain("01")]], 0, 0)

  lemma PairCellInserted() ensures Pair.rows[0 := CellInserted(Pair.rows[0], 1, EmptyCell)] == PairWidened.rows
  {
    var c := CellInserted(Pair.rows[0], 1, EmptyCell);
    assert c[0] == Plain("00") && c[1] == EmptyCell && c[2] == Plain("01");
    var out := Pair.rows[0 := c];
    assert out[0] == PairWidened.rows[0];
  }

  // `Pw` abbreviates the table `PairWidened` in the names below.
  const PwL0 := Placement([Slot(0, 0, 1, 1), Slot(0, 1, 1, 1), Slot(0, 2, 1, 1)], {0, 1, 2}, 3)

  lemma PwPlace0From2()
    ensures Place(0, [Plain("01")], {0, 1}, 2) == Placement([Slot(0, 2, 1, 1)], {0, 1, 2}, 3)
  {
    assert [Plain("01")][1..] == [];
    assert Skip({0, 1}, 2) == 2 && {0, 1} + Columns(2, 1) == {0, 1, 2};
  }

  lemma PwPlace0From1()
    ensures Place(0, [EmptyCell, Plain("01")], {0}, 1) == Placement([Slot(0, 1, 1, 1), Slot(0, 2, 1, 1)], {0, 1, 2}, 3)
  {
    PwPlace0From2();
    assert [EmptyCell, Plain("01")][1..] == [Plain("01")];
    assert Skip({0}, 1) == 1 && {0} + Columns(1, 1) == {0, 1};
    assert [Slot(0, 1, 1, 1)] + [Slot(0, 2, 1, 1)] == [Slot(0, 1, 1, 1), Slot(0, 2, 1, 1)];
  }

  lemma PwPlace0() ensures Place(0, PairWidened.rows[0], {}, 0) == PwL0
  {
    PwPlace0From1();
    assert PairWidened.rows[0] == [Plain("00"), EmptyCell, Plain("01")];
    assert [Plain("00"), EmptyCell, Plain("01")][1..] == [EmptyCell, Plain("01")];
    assert Skip({}, 0) == 0 && {} + Columns(0, 1) == {0};
    assert [Slot(0, 0, 1, 1)] + [Slot(0, 1, 1, 1), Slot(0, 2, 1, 1)] == [Slot(0, 0, 1, 1), Slot(0, 1, 1, 1), Slot(0, 2, 1, 1)];
  }

  lemma PwLayouts()
    ensures Layouts(PairWidened.rows)[0] == PwL0
  {
    var rows := PairWidened.rows;
    FirstRow(rows);
    PwPlace0();
  }

  lemma PwColumns()
    ensures ColumnOf(PairWidened.rows, 0, 0) == 0 && ColumnOf(PairWidened.rows, 0, 1) == 1 && ColumnOf(PairWidened.rows, 0, 2) == 2
  {
    PwLayouts();
  }

  const PwView: seq<ViewSection> := [
    ViewSection(Body, [[Td("00"), Td(""), Td("01")]])]

  lemma PwRow0() ensures ViewRow(PairWidened, 0) == [Td("00"), Td(""), Td("01")]
  {
    ThreeCellRow(PairWidened, 0, D, D, D);
    assert PairWidened.rows[0] == [Plain("00"), EmptyCell, Plain("01")];
  }

  /** The new cell renders between `00` and `01`. */
  lemma PwShown() ensures Downcast(PairWidened) == PwView
  {
    BodyOnly(PairWidened);
    OneViewRows(PairWidened, 0);
    PwRow0();
  }

  /** An empty cell is inserted at index 1. */
  method InsertCellInRow() returns (v: seq<ViewSection>)
    ensures v == PwView
  {
    var m := new TableModel(Pair);
    PairCellInserted();
    m.InsertCell(0, 1);
    PwShown();
    v := Downcast(m.Value());
  }

  const WidePair: Table := Table([[Cell(1, 2, "00"), Plain("13")]], 0, 0)

  const WidePairWidened: Table := Table([[Cell(1, 2, "00"), EmptyCell, Plain("13")]], 0, 0)

  lemma WidePairCellInserted() ensures WidePair.rows[0 := CellInserted(WidePair.rows[0], 1, EmptyCell)] == WidePairWidened.rows
  {
    var c := CellInserted(WidePair.rows[0], 1, EmptyCell);
    assert c[0] == Cell(1, 2, "00") && c[1] == EmptyCell && c[2] == Plain("13");
    var out := WidePair.rows[0 := c];
    assert out[0] == WidePairWidened.rows[0];
  }

  // `Ww` abbreviates the table `WidePairWidened` in the names below.
  const WwL0 := Placement([Slot(0, 0, 1, 2), Slot(0, 2, 1, 1), Slot(0, 3, 1, 1)], {0, 1, 2, 3}, 4)

  lemma WwPlace0From2()
    ensures Place(0, [Plain("13")], {0, 1, 2}, 3) == Placement([Slot(0, 3, 1, 1)], {0, 1, 2, 3}, 4)
  {
    assert [Plain("13")][1..] == [];
    assert Skip({0, 1, 2}, 3) == 3 && {0, 1, 2} + Columns(3, 1) == {0, 1, 2, 3};
  }

  lemma WwPlace0From1()
    ensures Place(0, [EmptyCell, Plain("13")], {0, 1}, 1) == Placement([Slot(0, 2, 1, 1), Slot(0, 3, 1, 1)], {0, 1, 2, 3}, 4)
  {
    WwPlace0From2();
    assert [EmptyCell, Plain("13")][1..] == [Plain("13")];
    SkipAt({0, 1}, 1, 2);
    assert {0, 1} + Columns(2, 1) == {0, 1, 2};
    assert [Slot(0, 2, 1, 1)] + [Slot(0, 3, 1, 1)] == [Slot(0, 2, 1, 1), Slot(0, 3, 1, 1)];
  }

  lemma WwPlace0() ensures Place(0, WidePairWidened.rows[0], {}, 0) == WwL0
  {
    WwPlace0From1();
    assert WidePairWidened.rows[0] == [Cell(1, 2, "00"), EmptyCell, Plain("13")];
    assert [Cell(1, 2, "00"), EmptyCell, Plain("13")][1..] == [EmptyCell, Plain("13")];
    assert Skip({}, 0) == 0 && {} + Columns(0, 2) == {0, 1};
    assert [Slot(0, 0, 1, 2)] + [Slot(0, 2, 1, 1), Slot(0, 3, 1, 1)] == [Slot(0, 0, 1, 2), Slot(0, 2, 1, 1), Slot(0, 3, 1, 1)];
  }

  lemma WwLayouts()
    ensures Layouts(WidePairWidened.rows)[0] == WwL0
  {
    var rows := WidePairWidened.rows;
    FirstRow(rows);
    WwPlace0();
  }

  lemma WwColumns()
    ensures ColumnOf(WidePairWidened.rows, 0, 0) == 0 && ColumnOf(WidePairWidened.rows, 0, 1) == 2 && ColumnOf(WidePairWidened.rows, 0, 2) == 3
  {
    WwLayouts();
  }

  const WwView: seq<ViewSection> := [
    ViewSection(Body, [[ViewCell(D, 1, 2, "00"), Td(""), Td("13")]])]

  lemma WwRow0() ensures ViewRow(WidePairWidened, 0) == [ViewCell(D, 1, 2, "00"), Td(""), Td("13")]
  {
    ThreeCellRow(WidePairWidened, 0, D, D, D);
    assert WidePairWidened.rows[0] == [Cell(1, 2, "00"), EmptyCell, Plain("13")];
  }

  /** The new cell renders after the two-column cell. */
  lemma WwShown() ensures Downcast(WidePairWidened) == WwView
  {
    BodyOnly(WidePairWidened);
    OneViewRows(WidePairWidened, 0);
    WwRow0();
  }

  /** An empty cell is inserted after a cell spanning two columns. */
  method InsertCellAfterColspan() returns (v: seq<ViewSection>)
    ensures v == WwView
  {
    var m := new TableModel(WidePair);
    WidePairCellInserted();
    m.InsertCell(0, 1);
    WwShown();
    v := Downcast(m.Value());
  }

  const Stack: Table := Table([
    [Cell(2, 1, "00"), Plain("13")],
    [Plain("11"), Plain("12")]], 0, 0)

  const StackTop: Table := Table([
    [Cell(2, 1, "00"), EmptyCell, Plain("13")],
    [Plain("11"), Plain("12")]], 0, 0)

  const StackBoth: Table := Table([
    [Cell(2, 1, "00"), EmptyCell, Plain("13")],
    [EmptyCell, Plain("11"), Plain("12")]], 0, 0)

  lemma StackCellInserted() ensures Stack.rows[0 := CellInserted(Stack.rows[0], 1, EmptyCell)] == StackTop.rows
  {
    var c := CellInserted(Stack.rows[0], 1, EmptyCell);
    assert c[0] == Cell(2, 1, "00") && c[1] == EmptyCell && c[2] == Plain("13");
    var out := Stack.rows[0 := c];
    assert out[0] == StackTop.rows[0] && out[1] == StackTop.rows[1];
  }

  lemma StackTopCellInserted() ensures StackTop.rows[1 := CellInserted(StackTop.rows[1], 0, EmptyCell)] == StackBoth.rows
  {
    var c := CellInserted(StackTop.rows[1], 0, EmptyCell);
    assert c[0] == EmptyCell && c[1] == Plain("11") && c[2] == Plain("12");
    var out := StackTop.rows[1 := c];
    assert out[0] == StackBoth.rows[0] && out[1] == StackBoth.rows[1];
  }

  // `Sb` abbreviates the table `StackBoth` in the names below.
  const SbL0 := Placement([Slot(0, 0, 2, 1), Slot(0, 1, 1, 1), Slot(0, 2, 1, 1)], {0, 1, 2}, 3)
  const SbL1 := Placement([Slot(1, 1, 1, 1), Slot(1, 2, 1, 1), Slot(1, 3, 1, 1)], {0, 1, 2, 3}, 4)

  lemma SbPlace0From2()
    ensures Place(0, [Plain("13")], {0, 1}, 2) == Placement([Slot(0, 2, 1, 1)], {0, 1, 2}, 3)
  {
    assert [Plain("13")][1..] == [];
    assert Skip({0, 1}, 2) == 2 && {0, 1} + Columns(2, 1) == {0, 1, 2};
  }

  lemma SbPlace0From1()
    ensures Place(0, [EmptyCell, Plain("13")], {0}, 1) == Placement([Slot(0, 1, 1, 1), Slot(0, 2, 1, 1)], {0, 1, 2}, 3)
  {
    SbPlace0From2();
    assert [EmptyCell, Plain("13")][1..] == [Plain("13")];
    assert Skip({0}, 1) == 1 && {0} + Columns(1, 1) == {0, 1};
    assert [Slot(0, 1, 1, 1)] + [Slot(0, 2, 1, 1)] == [Slot(0, 1, 1, 1), Slot(0, 2, 1, 1)];
  }

  lemma SbPlace0() ensures Place(0, StackBoth.rows[0], {}, 0) == SbL0
  {
    SbPlace0From1();
    assert StackBoth.rows[0] == [Cell(2, 1, "00"), EmptyCell, Plain("13")];
    assert [Cell(2, 1, "00"), EmptyCell, Plain("13")][1..] == [EmptyCell, Plain("13")];
    assert Skip({}, 0) == 0 && {} + Columns(0, 1) == {0};
    assert [Slot(0, 0, 2, 1)] + [Slot(0, 1, 1, 1), Slot(0, 2, 1, 1)] == [Slot(0, 0, 2, 1), Slot(0, 1, 1, 1), Slot(0, 2, 1, 1)];
  }

  lemma SbPlace1From2()
    ensures Place(1, [Plain("12")], {0, 1, 2}, 3) == Placement([Slot(1, 3, 1, 1)], {0, 1, 2, 3}, 4)
  {
    assert [Plain("12")][1..] == [];
    assert Skip({0, 1, 2}, 3) == 3 && {0, 1, 2} + Columns(3, 1) == {0, 1, 2, 3};
  }

  lemma SbPlace1From1()
    ensures Place(1, [Plain("11"), Plain("12")], {0, 1}, 2) == Placement([Slot(1, 2, 1, 1), Slot(1, 3, 1, 1)], {0, 1, 2, 3}, 4)
  {
    SbPlace1From2();
    assert [Plain("11"), Plain("12")][1..] == [Plain("12")];
    assert Skip({0, 1}, 2) == 2 && {0, 1} + Columns(2, 1) == {0, 1, 2};
    assert [Slot(1, 2, 1, 1)] + [Slot(1, 3, 1, 1)] == [Slot(1, 2, 1, 1), Slot(1, 3, 1, 1)];
  }

  lemma SbPlace1() ensures Place(1, StackBoth.rows[1], {0}, 0) == SbL1
  {
    SbPlace1From1();
    assert StackBoth.rows[1] == [EmptyCell, Plain("11"), Plain("12")];
    assert [EmptyCell, Plain("11"), Plain("12")][1..] == [Plain("11"), Plain("12")];
    SkipAt({0}, 0, 1);
    assert {0} + Columns(1, 1) == {0, 1};
    assert [Slot(1, 1, 1, 1)] + [Slot(1, 2, 1, 1), Slot(1, 3, 1, 1)] == [Slot(1, 1, 1, 1), Slot(1, 2, 1, 1), Slot(1, 3, 1, 1)];
  }

  lemma SbCarried1() ensures CarriedByRow(SbL0.slots, 1) == {0}
  {
    assert SbL0.slots[1..][1..][1..] == [];
    assert Columns(0, 1) == {0};
  }

  lemma SbLayouts()
    ensures Layouts(StackBoth.rows)[0] == SbL0 && Layouts(StackBoth.rows)[1] == SbL1
  {
    var rows := StackBoth.rows;
    FirstRow(rows);
    SbPlace0();
    SecondRow(rows);
    SbCarried1();
    SbPlace1();
  }

  lemma SbColumns()
    ensures ColumnOf(StackBoth.rows, 0, 0) == 0 && ColumnOf(StackBoth.rows, 0, 1) == 1 && ColumnOf(StackBoth.rows, 0, 2) == 2 && ColumnOf(StackBoth.rows, 1, 0) == 1 && ColumnOf(StackBoth.rows, 1, 1) == 2 && ColumnOf(StackBoth.rows, 1, 2) == 3
  {
    SbLayouts();
  }

  const SbView: seq<ViewSection> := [
    ViewSection(Body, [
      [ViewCell(D, 2, 1, "00"), Td(""), Td("13")],
      [Td(""), Td("11"), Td("12")]])]

  lemma SbRow0() ensures ViewRow(StackBoth, 0) == [ViewCell(D, 2, 1, "00"), Td(""), Td("13")]
  {
    ThreeCellRow(StackBoth, 0, D, D, D);
    assert StackBoth.rows[0] == [Cell(2, 1, "00"), EmptyCell, Plain("13")];
  }

  lemma SbRow1() ensures ViewRow(StackBoth, 1) == [Td(""), Td("11"), Td("12")]
  {
    ThreeCellRow(StackBoth, 1, D, D, D);
    assert StackBoth.rows[1] == [EmptyCell, Plain("11"), Plain("12")];
  }

  /** Both new cells render at their indices; the second row's cells start right of `00`. */
  lemma SbShown() ensures Downcast(StackBoth) == SbView
  {
    BodyOnly(StackBoth);
    TwoViewRows(StackBoth, 0);
    SbRow0();
    SbRow1();
  }

  /** Empty cells are inserted at index 1 of the first row and at index 0 of the second. */
  method InsertCellsBesideRowspan() returns (v: seq<ViewSection>)
    ensures v == SbView
  {
    var m := new TableModel(Stack);
    StackCellInserted();
    m.InsertCell(0, 1);
    StackTopCellInserted();
    m.InsertCell(1, 0);
    SbShown();
    v := Downcast(m.Value());
  }

  // ---------------------------------------------------------------------------------------------
  // tests/converters/downcast.js:645-686: splitting and merging cells by inserting or
  // removing a cell and changing a colspan.

  const Square: Table := Table([
    [Plain("00"), Plain("01")],
    [Plain("10"), Plain("11")]], 0, 0)

  const SquareSplit: Table := Table([
    [Plain("00"), EmptyCell, Plain("01")],
    [Cell(1, 2, "10"), Plain("11")]], 0, 0)

  const SquareMerged: Table := Table([
    [Cell(1, 2, "00")],
    [Plain("10"), Plain("11")]], 0, 0)

  lemma SquareSplitEdited()
    ensures var rows := Square.rows[0 := CellInserted(Square.rows[0], 1, EmptyCell)];
      rows[1 := rows[1][0 := rows[1][0].(colspan := 2)]] == SquareSplit.rows
  {
    var c := CellInserted(Square.rows[0], 1, EmptyCell);
    assert c[0] == Plain("00") && c[1] == EmptyCell && c[2] == Plain("01");
    var rows: seq<seq<Cell>> := Square.rows[0 := c];
    var out := rows[1 := rows[1][0 := rows[1][0].(colspan := 2)]];
    assert out[0] == SquareSplit.rows[0] && out[1] == SquareSplit.rows[1];
  }

  lemma SquareMergedEdited()
    ensures var rows := Square.rows[0 := Square.rows[0][0 := Square.rows[0][0].(colspan := 2)]];
      ColumnTargets(rows, 1, [0], 1) && ColumnRemoved(rows, 1, [0]) == SquareMerged.rows
  {
    var rows: seq<seq<Cell>> := Square.rows[0 := Square.rows[0][0 := Square.rows[0][0].(colspan := 2)]];
    var out := ColumnRemoved(rows, 1, [0]);
    assert out[0] == SquareMerged.rows[0] && out[1] == SquareMerged.rows[1];
  }

  // `Ss` abbreviates the table `SquareSplit` in the names below.
  const SsL0 := Placement([Slot(0, 0, 1, 1), Slot(0, 1, 1, 1), Slot(0, 2, 1, 1)], {0, 1, 2}, 3)
  const SsL1 := Placement([Slot(1, 0, 1, 2), Slot(1, 2, 1, 1)], {0, 1, 2}, 3)

  lemma SsPlace0From2()
    ensures Place(0, [Plain("01")], {0, 1}, 2) == Placement([Slot(0, 2, 1, 1)], {0, 1, 2}, 3)
  {
    assert [Plain("01")][1..] == [];
    assert Skip({0, 1}, 2) == 2 && {0, 1} + Columns(2, 1) == {0, 1, 2};
  }

  lemma SsPlace0From1()
    ensures Place(0, [EmptyCell, Plain("01")], {0}, 1) == Placement([Slot(0, 1, 1, 1), Slot(0, 2, 1, 1)], {0, 1, 2}, 3)
  {
    SsPlace0From2();
    assert [EmptyCell, Plain("01")][1..] == [Plain("01")];
    assert Skip({0}, 1) == 1 && {0} + Columns(1, 1) == {0, 1};
    assert [Slot(0, 1, 1, 1)] + [Slot(0, 2, 1, 1)] == [Slot(0, 1, 1, 1), Slot(0, 2, 1, 1)];
  }

  lemma SsPlace0() ensures Place(0, SquareSplit.rows[0], {}, 0) == SsL0
  {
    SsPlace0From1();
    assert SquareSplit.rows[0] == [Plain("00"), EmptyCell, Plain("01")];
    assert [Plain("00"), EmptyCell, Plain("01")][1..] == [EmptyCell, Plain("01")];
    assert Skip({}, 0) == 0 && {} + Columns(0, 1) == {0};
    assert [Slot(0, 0, 1, 1)] + [Slot(0, 1, 1, 1), Slot(0, 2, 1, 1)] == [Slot(0, 0, 1, 1), Slot(0, 1, 1, 1), Slot(0, 2, 1, 1)];
  }

  lemma SsPlace1() ensures Place(1, SquareSplit.rows[1], {}, 0) == SsL1
  {
    var row := SquareSplit.rows[1];
    assert row[1..] == [Plain("11")] && row[1..][1..] == [];
    SkipAt({0, 1}, 1, 2);
    assert {0, 1} + Columns(2, 1) == {0, 1, 2};
    assert Place(1, row[1..], {0, 1}, 1) == Placement([Slot(1, 2, 1, 1)], {0, 1, 2}, 3);
    assert Skip({}, 0) == 0 && {} + Columns(0, 2) == {0, 1};
  }

  lemma SsCarried1() ensures CarriedByRow(SsL0.slots, 1) == {}
  {
    assert SsL0.slots[1..][1..][1..] == [];
  }

  lemma SsLayouts()
    ensures Layouts(SquareSplit.rows)[0] == SsL0 && Layouts(SquareSplit.rows)[1] == SsL1
  {
    var rows := SquareSplit.rows;
    FirstRow(rows);
    SsPlace0();
    SecondRow(rows);
    SsCarried1();
    SsPlace1();
  }

  lemma SsColumns()
    ensures ColumnOf(SquareSplit.rows, 0, 0) == 0 && ColumnOf(SquareSplit.rows, 0, 1) == 1 && ColumnOf(SquareSplit.rows, 0, 2) == 2 && ColumnOf(SquareSplit.rows, 1, 0) == 0 && ColumnOf(SquareSplit.rows, 1, 1) == 2
  {
    SsLayouts();
  }

  const SsView: seq<ViewSection> := [
    ViewSection(Body, [
      [Td("00"), Td(""), Td("01")],
      [ViewCell(D, 1, 2, "10"), Td("11")]])]

  lemma SsRow0() ensures ViewRow(SquareSplit, 0) == [Td("00"), Td(""), Td("01")]
  {
    ThreeCellRow(SquareSplit, 0, D, D, D);
    assert SquareSplit.rows[0] == [Plain("00"), EmptyCell, Plain("01")];
  }

  lemma SsRow1() ensures ViewRow(SquareSplit, 1) == [ViewCell(D, 1, 2, "10"), Td("11")]
  {
    TwoCellRow(SquareSplit, 1, D, D);
    assert SquareSplit.rows[1] == [Cell(1, 2, "10"), Plain("11")];
  }

  /** `00` and the new cell take one column each above `10`, which spans two. */
  lemma SsShown() ensures Downcast(SquareSplit) == SsView
  {
    BodyOnly(SquareSplit);
    TwoViewRows(SquareSplit, 0);
    SsRow0();
    SsRow1();
  }

  /** A cell is inserted after `00`, and `10` below the two is widened to two columns. */
  method SplitCell() returns (v: seq<ViewSection>)
    ensures v == SsView
  {
    var m := new TableModel(Square);
    m.InsertCell(0, 1);
    m.SetColspan(1, 0, 2);
    SquareSplitEdited();
    SsShown();
    v := Downcast(m.Value());
  }

  // `Sm` abbreviates the table `SquareMerged` in the names below.
  const SmL0 := Placement([Slot(0, 0, 1, 2)], {0, 1}, 1)
  const SmL1 := Placement([Slot(1, 0, 1, 1), Slot(1, 1, 1, 1)], {0, 1}, 2)

  lemma SmPlace0() ensures Place(0, SquareMerged.rows[0], {}, 0) == SmL0
  {
    var row := SquareMerged.rows[0];
    assert row[1..] == [];
    assert Skip({}, 0) == 0 && {} + Columns(0, 2) == {0, 1};
  }

  lemma SmPlace1() ensures Place(1, SquareMerged.rows[1], {}, 0) == SmL1
  {
    var row := SquareMerged.rows[1];
    assert row[1..] == [Plain("11")] && row[1..][1..] == [];
    assert Skip({0}, 1) == 1 && {0} + Columns(1, 1) == {0, 1};
    assert Place(1, row[1..], {0}, 1) == Placement([Slot(1, 1, 1, 1)], {0, 1}, 2);
    assert Skip({}, 0) == 0 && {} + Columns(0, 1) == {0};
  }

  lemma SmCarried1() ensures CarriedByRow(SmL0.slots, 1) == {}
  {
    assert SmL0.slots[1..] == [];
  }

  lemma SmLayouts()
    ensures Layouts(SquareMerged.rows)[0] == SmL0 && Layouts(SquareMerged.rows)[1] == SmL1
  {
    var rows := SquareMerged.rows;
    FirstRow(rows);
    SmPlace0();
    SecondRow(rows);
    SmCarried1();
    SmPlace1();
  }

  lemma SmColumns()
    ensures ColumnOf(SquareMerged.rows, 0, 0) == 0 && ColumnOf(SquareMerged.rows, 1, 0) == 0 && ColumnOf(SquareMerged.rows, 1, 1) == 1
  {
    SmLayouts();
  }

  const SmView: seq<ViewSection> := [
    ViewSection(Body, [
      [ViewCell(D, 1, 2, "00")],
      [Td("10"), Td("11")]])]

  lemma SmRow0() ensures ViewRow(SquareMerged, 0) == [ViewCell(D, 1, 2, "00")]
  {
    OneCellRow(SquareMerged, 0, D);
    assert SquareMerged.rows[0] == [Cell(1, 2, "00")];
  }

  lemma SmRow1() ensures ViewRow(SquareMerged, 1) == [Td("10"), Td("11")]
  {
    TwoCellRow(SquareMerged, 1, D, D);
    assert SquareMerged.rows[1] == [Plain("10"), Plain("11")];
  }

  /** `00` spans the two columns of the first row. */
  lemma SmShown() ensures Downcast(SquareMerged) == SmView
  {
    BodyOnly(SquareMerged);
    TwoViewRows(SquareMerged, 0);
    SmRow0();
    SmRow1();
  }

  /** `00` is widened to two columns and `01` is removed. */
  method MergeCells() returns (v: seq<ViewSection>)
    ensures v == SmView
  {
    var m := new TableModel(Square);
    m.SetColspan(0, 0, 2);
    SquareMergedEdited();
    m.RemoveColumn(1, [0]);
    SmShown();
    v := Downcast(m.Value());
  }

  // ---------------------------------------------------------------------------------------------
  // tests/converters/downcast.js:733-803: changing the heading columns.

  // `Sq` abbreviates the table `Square` in the names below.
  const SqView: seq<ViewSection> := [
    ViewSection(Body, [
      [Td("00"), Td("01")],
      [Td("10"), Td("11")]])]

  lemma SqRow0() ensures ViewRow(Square, 0) == [Td("00"), Td("01")]
  {
    TwoCellRow(Square, 0, D, D);
    assert Square.rows[0] == [Plain("00"), Plain("01")];
  }

  lemma SqRow1() ensures ViewRow(Square, 1) == [Td("10"), Td("11")]
  {
    TwoCellRow(Square, 1, D, D);
    assert Square.rows[1] == [Plain("10"), Plain("11")];
  }

  /** Without heading rows or columns, a body of data cells. */
  lemma SqShown() ensures Downcast(Square) == SqView
  {
    BodyOnly(Square);
    TwoViewRows(Square, 0);
    SqRow0();
    SqRow1();
  }

  const SquareOneColumn: Table := Square.(headingColumns := 1)

  // `SqC` abbreviates the table `SquareOneColumn` in the names below.
  lemma SqCColumns() ensures ColumnOf(SquareOneColumn.rows, 0, 0) == 0 && ColumnOf(SquareOneColumn.rows, 0, 1) == 1 && ColumnOf(SquareOneColumn.rows, 1, 0) == 0 && ColumnOf(SquareOneColumn.rows, 1, 1) == 1
  {
    PlainColumns(SquareOneColumn.rows);
  }

  const SqCView: seq<ViewSection> := [
    ViewSection(Body, [
      [Th("00"), Td("01")],
      [Th("10"), Td("11")]])]

  lemma SqCKinds0() ensures IsHeadingCell(SquareOneColumn, 0, 0) && !IsHeadingCell(SquareOneColumn, 0, 1)
  {
    SqCColumns();
  }

  lemma SqCRow0() ensures ViewRow(SquareOneColumn, 0) == [Th("00"), Td("01")]
  {
    SqCKinds0();
    TwoCellRow(SquareOneColumn, 0, H, D);
    assert SquareOneColumn.rows[0] == [Plain("00"), Plain("01")];
  }

  lemma SqCKinds1() ensures IsHeadingCell(SquareOneColumn, 1, 0) && !IsHeadingCell(SquareOneColumn, 1, 1)
  {
    SqCColumns();
  }

  lemma SqCRow1() ensures ViewRow(SquareOneColumn, 1) == [Th("10"), Td("11")]
  {
    SqCKinds1();
    TwoCellRow(SquareOneColumn, 1, H, D);
    assert SquareOneColumn.rows[1] == [Plain("10"), Plain("11")];
  }

  /** One heading column: the first cell of each row. */
  lemma SqCShown() ensures Downcast(SquareOneColumn) == SqCView
  {
    BodyOnly(SquareOneColumn);
    TwoViewRows(SquareOneColumn, 0);
    SqCRow0();
    SqCRow1();
  }

  /** Setting one heading column turns the first cell of each row into a heading cell. */
  method AddHeadingColumn() returns (v: seq<ViewSection>)
    ensures v == SqCView
  {
    var m := new TableModel(Square);
    m.SetHeadingColumns(1);
    SqCShown();
    v := Downcast(m.Value());
  }

  /** Two rows of four cells with one heading column. */
  const Band: Table := Table([
    [Plain("00"), Plain("01"), Plain("02"), Plain("03")],
    [Plain("10"), Plain("11"), Plain("12"), Plain("13")]], 0, 1)

  // `Bd` abbreviates the table `Band` in the names below.
  lemma BdColumns() ensures ColumnOf(Band.rows, 0, 0) == 0 && ColumnOf(Band.rows, 0, 1) == 1 && ColumnOf(Band.rows, 0, 2) == 2 && ColumnOf(Band.rows, 0, 3) == 3 && ColumnOf(Band.rows, 1, 0) == 0 && ColumnOf(Band.rows, 1, 1) == 1 && ColumnOf(Band.rows, 1, 2) == 2 && ColumnOf(Band.rows, 1, 3) == 3
  {
    PlainColumns(Band.rows);
  }

  const BdView: seq<ViewSection> := [
    ViewSection(Body, [
      [Th("00"), Td("01"), Td("02"), Td("03")],
      [Th("10"), Td("11"), Td("12"), Td("13")]])]

  lemma BdKinds0() ensures IsHeadingCell(Band, 0, 0) && !IsHeadingCell(Band, 0, 1) && !IsHeadingCell(Band, 0, 2) && !IsHeadingCell(Band, 0, 3)
  {
    BdColumns();
  }

  lemma BdRow0() ensures ViewRow(Band, 0) == [Th("00"), Td("01"), Td("02"), Td("03")]
  {
    BdKinds0();
    FourCellRow(Band, 0, H, D, D, D);
    assert Band.rows[0] == [Plain("00"), Plain("01"), Plain("02"), Plain("03")];
  }

  lemma BdKinds1() ensures IsHeadingCell(Band, 1, 0) && !IsHeadingCell(Band, 1, 1) && !IsHeadingCell(Band, 1, 2) && !IsHeadingCell(Band, 1, 3)
  {
    BdColumns();
  }

  lemma BdRow1() ensures ViewRow(Band, 1) == [Th("10"), Td("11"), Td("12"), Td("13")]
  {
    BdKinds1();
    FourCellRow(Band, 1, H, D, D, D);
    assert Band.rows[1] == [Plain("10"), Plain("11"), Plain("12"), Plain("13")];
  }

  /** One heading column. */
  lemma BdShown() ensures Downcast(Band) == BdView
  {
    BodyOnly(Band);
    TwoViewRows(Band, 0);
    BdRow0();
    BdRow1();
  }

  const BandThreeColumns: Table := Band.(headingColumns := 3)

  lemma Bd3Columns() ensures ColumnOf(BandThreeColumns.rows, 0, 0) == 0 && ColumnOf(BandThreeColumns.rows, 0, 1) == 1 && ColumnOf(BandThreeColumns.rows, 0, 2) == 2 && ColumnOf(BandThreeColumns.rows, 0, 3) == 3 && ColumnOf(BandThreeColumns.rows, 1, 0) == 0 && ColumnOf(BandThreeColumns.rows, 1, 1) == 1 && ColumnOf(BandThreeColumns.rows, 1, 2) == 2 && ColumnOf(BandThreeColumns.rows, 1, 3) == 3
  {
    PlainColumns(BandThreeColumns.rows);
  }

  const Bd3View: seq<ViewSection> := [
    ViewSection(Body, [
      [Th("00"), Th("01"), Th("02"), Td("03")],
      [Th("10"), Th("11"), Th("12"), Td("13")]])]

  lemma Bd3Kinds0() ensures IsHeadingCell(BandThreeColumns, 0, 0) && IsHeadingCell(BandThreeColumns, 0, 1) && IsHeadingCell(BandThreeColumns, 0, 2) && !IsHeadingCell(BandThreeColumns, 0, 3)
  {
    Bd3Columns();
  }

  lemma Bd3Row0() ensures ViewRow(BandThreeColumns, 0) == [Th("00"), Th("01"), Th("02"), Td("03")]
  {
    Bd3Kinds0();
    FourCellRow(BandThreeColumns, 0, H, H, H, D);
    assert BandThreeColumns.rows[0] == [Plain("00"), Plain("01"), Plain("02"), Plain("03")];
  }

  lemma Bd3Kinds1() ensures IsHeadingCell(BandThreeColumns, 1, 0) && IsHeadingCell(BandThreeColumns, 1, 1) && IsHeadingCell(BandThreeColumns, 1, 2) && !IsHeadingCell(BandThreeColumns, 1, 3)
  {
    Bd3Columns();
  }

  lemma Bd3Row1() ensures ViewRow(BandThreeColumns, 1) == [Th("10"), Th("11"), Th("12"), Td("13")]
  {
    Bd3Kinds1();
    FourCellRow(BandThreeColumns, 1, H, H, H, D);
    assert BandThreeColumns.rows[1] == [Plain("10"), Plain("11"), Plain("12"), Plain("13")];
  }

  /** Three heading columns. */
  lemma Bd3Shown() ensures Downcast(BandThreeColumns) == Bd3View
  {
    BodyOnly(BandThreeColumns);
    TwoViewRows(BandThreeColumns, 0);
    Bd3Row0();
    Bd3Row1();
  }

  /** Raising the heading columns from 1 to 3 makes the second and third cells of each row heading cells. */
  method WidenHeadingColumns() returns (v: seq<ViewSection>)
    ensures v == Bd3View
  {
    var m := new TableModel(Band);
    m.SetHeadingColumns(3);
    Bd3Shown();
    v := Downcast(m.Value());
  }

  /** Lowering them from 3 to 1 makes those cells data cells again. */
  method NarrowHeadingColumns() returns (v: seq<ViewSection>)
    ensures v == BdView
  {
    var m := new TableModel(BandThreeColumns);
    m.SetHeadingColumns(1);
    assert m.Value() == Band;
    BdShown();
    v := Downcast(m.Value());
  }

  /** Removing the attribute leaves data cells only. */
  method RemoveHeadingColumns() returns (v: seq<ViewSection>)
    ensures v == SqView
  {
    var m := new TableModel(SquareOneColumn);
    m.SetHeadingColumns(0);
    assert m.Value() == Square;
    SqShown();
    v := Downcast(m.Value());
  }

  // ---------------------------------------------------------------------------------------------
  // tests/converters/downcast.js:826-865: heading columns raised while a column is inserted.

  const Mixed: Table := Table([
    [Cell(2, 1, "00"), Plain("01"), Plain("13"), Plain("14")],
    [Plain("11"), Plain("12"), Plain("13")],
    [Cell(1, 2, "20"), Plain("22"), Plain("23")]], 0, 2)

  const MixedThree: Table := Mixed.(headingColumns := 3)

  const MixedTop: Table := Table([
    [Cell(2, 1, "00"), Plain("01"), EmptyCell, Plain("13"), Plain("14")],
    [Plain("11"), Plain("12"), Plain("13")],
    [Cell(1, 2, "20"), Plain("22"), Plain("23")]], 0, 3)

  const MixedMiddle: Table := Table([
    [Cell(2, 1, "00"), Plain("01"), EmptyCell, Plain("13"), Plain("14")],
    [Plain("11"), EmptyCell, Plain("12"), Plain("13")],
    [Cell(1, 2, "20"), Plain("22"), Plain("23")]], 0, 3)

  const MixedFull: Table := Table([
    [Cell(2, 1, "00"), Plain("01"), EmptyCell, Plain("13"), Plain("14")],
    [Plain("11"), EmptyCell, Plain("12"), Plain("13")],
    [Cell(1, 2, "20"), EmptyCell, Plain("22"), Plain("23")]], 0, 3)

  lemma MixedCellInserted() ensures MixedThree.rows[0 := CellInserted(MixedThree.rows[0], 2, EmptyCell)] == MixedTop.rows
  {
    var c := CellInserted(MixedThree.rows[0], 2, EmptyCell);
    assert c[0] == Cell(2, 1, "00") && c[1] == Plain("01") && c[2] == EmptyCell && c[3] == Plain("13") && c[4] == Plain("14");
    var out := MixedThree.rows[0 := c];
    assert out[0] == MixedTop.rows[0] && out[1] == MixedTop.rows[1] && out[2] == MixedTop.rows[2];
  }

  lemma MixedTopCellInserted() ensures MixedTop.rows[1 := CellInserted(MixedTop.rows[1], 1, EmptyCell)] == MixedMiddle.rows
  {
    var c := CellInserted(MixedTop.rows[1], 1, EmptyCell);
    assert c[0] == Plain("11") && c[1] == EmptyCell && c[2] == Plain("12") && c[3] == Plain("13");
    var out := MixedTop.rows[1 := c];
    assert out[0] == MixedMiddle.rows[0] && out[1] == MixedMiddle.rows[1] && out[2] == MixedMiddle.rows[2];
  }

  lemma MixedMiddleCellInserted() ensures MixedMiddle.rows[2 := CellInserted(MixedMiddle.rows[2], 1, EmptyCell)] == MixedFull.rows
  {
    var c := CellInserted(MixedMiddle.rows[2], 1, EmptyCell);
    assert c[0] == Cell(1, 2, "20") && c[1] == EmptyCell && c[2] == Plain("22") && c[3] == Plain("23");
    var out := MixedMiddle.rows[2 := c];
    assert out[0] == MixedFull.rows[0] && out[1] == MixedFull.rows[1] && out[2] == MixedFull.rows[2];
  }

  // `Mx` abbreviates the table `MixedFull` in the names below.
  const MxL0 := Placement([Slot(0, 0, 2, 1), Slot(0, 1, 1, 1), Slot(0, 2, 1, 1), Slot(0, 3, 1, 1), Slot(0, 4, 1, 1)], {0, 1, 2, 3, 4}, 5)
  const MxL1 := Placement([Slot(1, 1, 1, 1), Slot(1, 2, 1, 1), Slot(1, 3, 1, 1), Slot(1, 4, 1, 1)], {0, 1, 2, 3, 4}, 5)
  const MxL2 := Placement([Slot(2, 0, 1, 2), Slot(2, 2, 1, 1), Slot(2, 3, 1, 1), Slot(2, 4, 1, 1)], {0, 1, 2, 3, 4}, 5)

  lemma MxPlace0From4()
    ensures Place(0, [Plain("14")], {0, 1, 2, 3}, 4) == Placement([Slot(0, 4, 1, 1)], {0, 1, 2, 3, 4}, 5)
  {
    assert [Plain("14")][1..] == [];
    assert Skip({0, 1, 2, 3}, 4) == 4 && {0, 1, 2, 3} + Columns(4, 1) == {0, 1, 2, 3, 4};
  }

  lemma MxPlace0From3()
    ensures Place(0, [Plain("13"), Plain("14")], {0, 1, 2}, 3) == Placement([Slot(0, 3, 1, 1), Slot(0, 4, 1, 1)], {0, 1, 2, 3, 4}, 5)
  {
    MxPlace0From4();
    assert [Plain("13"), Plain("14")][1..] == [Plain("14")];
    assert Skip({0, 1, 2}, 3) == 3 && {0, 1, 2} + Columns(3, 1) == {0, 1, 2, 3};
    assert [Slot(0, 3, 1, 1)] + [Slot(0, 4, 1, 1)] == [Slot(0, 3, 1, 1), Slot(0, 4, 1, 1)];
  }

  lemma MxPlace0From2()
    ensures Place(0, [EmptyCell, Plain("13"), Plain("14")], {0, 1}, 2) == Placement([Slot(0, 2, 1, 1), Slot(0, 3, 1, 1), Slot(0, 4, 1, 1)], {0, 1, 2, 3, 4}, 5)
  {
    MxPlace0From3();
    assert [EmptyCell, Plain("13"), Plain("14")][1..] == [Plain("13"), Plain("14")];
    assert Skip({0, 1}, 2) == 2 && {0, 1} + Columns(2, 1) == {0, 1, 2};
    assert [Slot(0, 2, 1, 1)] + [Slot(0, 3, 1, 1), Slot(0, 4, 1, 1)] == [Slot(0, 2, 1, 1), Slot(0, 3, 1, 1), Slot(0, 4, 1, 1)];
  }

  lemma MxPlace0From1()
    ensures Place(0, [Plain("01"), EmptyCell, Plain("13"), Plain("14")], {0}, 1) == Placement([Slot(0, 1, 1, 1), Slot(0, 2, 1, 1), Slot(0, 3, 1, 1), Slot(0, 4, 1, 1)], {0, 1, 2, 3, 4}, 5)
  {
    MxPlace0From2();
    assert [Plain("01"), EmptyCell, Plain("13"), Plain("14")][1..] == [EmptyCell, Plain("13"), Plain("14")];
    assert Skip({0}, 1) == 1 && {0} + Columns(1, 1) == {0, 1};
    assert [Slot(0, 1, 1, 1)] + [Slot(0, 2, 1, 1), Slot(0, 3, 1, 1), Slot(0, 4, 1, 1)] == [Slot(0, 1, 1, 1), Slot(0, 2, 1, 1), Slot(0, 3, 1, 1), Slot(0, 4, 1, 1)];
  }

  lemma MxPlace0() ensures Place(0, MixedFull.rows[0], {}, 0) == MxL0
  {
    MxPlace0From1();
    assert MixedFull.rows[0] == [Cell(2, 1, "00"), Plain("01"), EmptyCell, Plain("13"), Plain("14")];
    assert [Cell(2, 1, "00"), Plain("01"), EmptyCell, Plain("13"), Plain("14")][1..] == [Plain("01"), EmptyCell, Plain("13"), Plain("14")];
    assert Skip({}, 0) == 0 && {} + Columns(0, 1) == {0};
    assert [Slot(0, 0, 2, 1)] + [Slot(0, 1, 1, 1), Slot(0, 2, 1, 1), Slot(0, 3, 1, 1), Slot(0, 4, 1, 1)] == [Slot(0, 0, 2, 1), Slot(0, 1, 1, 1), Slot(0, 2, 1, 1), Slot(0, 3, 1, 1), Slot(0, 4, 1, 1)];
  }

  lemma MxPlace1From3()
    ensures Place(1, [Plain("13")], {0, 1, 2, 3}, 4) == Placement([Slot(1, 4, 1, 1)], {0, 1, 2, 3, 4}, 5)
  {
    assert [Plain("13")][1..] == [];
    assert Skip({0, 1, 2, 3}, 4) == 4 && {0, 1, 2, 3} + Columns(4, 1) == {0, 1, 2, 3, 4};
  }

  lemma MxPlace1From2()
    ensures Place(1, [Plain("12"), Plain("13")], {0, 1, 2}, 3) == Placement([Slot(1, 3, 1, 1), Slot(1, 4, 1, 1)], {0, 1, 2, 3, 4}, 5)
  {
    MxPlace1From3();
    assert [Plain("12"), Plain("13")][1..] == [Plain("13")];
    assert Skip({0, 1, 2}, 3) == 3 && {0, 1, 2} + Columns(3, 1) == {0, 1, 2, 3};
    assert [Slot(1, 3, 1, 1)] + [Slot(1, 4, 1, 1)] == [Slot(1, 3, 1, 1), Slot(1, 4, 1, 1)];
  }

  lemma MxPlace1From1()
    ensures Place(1, [EmptyCell, Plain("12"), Plain("13")], {0, 1}, 2) == Placement([Slot(1, 2, 1, 1), Slot(1, 3, 1, 1), Slot(1, 4, 1, 1)], {0, 1, 2, 3, 4}, 5)
  {
    MxPlace1From2();
    assert [EmptyCell, Plain("12"), Plain("13")][1..] == [Plain("12"), Plain("13")];
    assert Skip({0, 1}, 2) == 2 && {0, 1} + Columns(2, 1) == {0, 1, 2};
    assert [Slot(1, 2, 1, 1)] + [Slot(1, 3, 1, 1), Slot(1, 4, 1, 1)] == [Slot(1, 2, 1, 1), Slot(1, 3, 1, 1), Slot(1, 4, 1, 1)];
  }

  lemma MxPlace1() ensures Place(1, MixedFull.rows[1], {0}, 0) == MxL1
  {
    MxPlace1From1();
    assert MixedFull.rows[1] == [Plain("11"), EmptyCell, Plain("12"), Plain("13")];
    assert [Plain("11"), EmptyCell, Plain("12"), Plain("13")][1..] == [EmptyCell, Plain("12"), Plain("13")];
    SkipAt({0}, 0, 1);
    assert {0} + Columns(1, 1) == {0, 1};
    assert [Slot(1, 1, 1, 1)] + [Slot(1, 2, 1, 1), Slot(1, 3, 1, 1), Slot(1, 4, 1, 1)] == [Slot(1, 1, 1, 1), Slot(1, 2, 1, 1), Slot(1, 3, 1, 1), Slot(1, 4, 1, 1)];
  }

  lemma MxPlace2From3()
    ensures Place(2, [Plain("23")], {0, 1, 2, 3}, 4) == Placement([Slot(2, 4, 1, 1)], {0, 1, 2, 3, 4}, 5)
  {
    assert [Plain("23")][1..] == [];
    assert Skip({0, 1, 2, 3}, 4) == 4 && {0, 1, 2, 3} + Columns(4, 1) == {0, 1, 2, 3, 4};
  }

  lemma MxPlace2From2()
    ensures Place(2, [Plain("22"), Plain("23")], {0, 1, 2}, 3) == Placement([Slot(2, 3, 1, 1), Slot(2, 4, 1, 1)], {0, 1, 2, 3, 4}, 5)
  {
    MxPlace2From3();
    assert [Plain("22"), Plain("23")][1..] == [Plain("23")];
    assert Skip({0, 1, 2}, 3) == 3 && {0, 1, 2} + Columns(3, 1) == {0, 1, 2, 3};
    assert [Slot(2, 3, 1, 1)] + [Slot(2, 4, 1, 1)] == [Slot(2, 3, 1, 1), Slot(2, 4, 1, 1)];
  }

  lemma MxPlace2From1()
    ensures Place(2, [EmptyCell, Plain("22"), Plain("23")], {0, 1}, 1) == Placement([Slot(2, 2, 1, 1), Slot(2, 3, 1, 1), Slot(2, 4, 1, 1)], {0, 1, 2, 3, 4}, 5)
  {
    MxPlace2From2();
    assert [EmptyCell, Plain("22"), Plain("23")][1..] == [Plain("22"), Plain("23")];
    SkipAt({0, 1}, 1, 2);
    assert {0, 1} + Columns(2, 1) == {0, 1, 2};
    assert [Slot(2, 2, 1, 1)] + [Slot(2, 3, 1, 1), Slot(2, 4, 1, 1)] == [Slot(2, 2, 1, 1), Slot(2, 3, 1, 1), Slot(2, 4, 1, 1)];
  }

  lemma MxPlace2() ensures Place(2, MixedFull.rows[2], {}, 0) == MxL2
  {
    MxPlace2From1();
    assert MixedFull.rows[2] == [Cell(1, 2, "20"), EmptyCell, Plain("22"), Plain("23")];
    assert [Cell(1, 2, "20"), EmptyCell, Plain("22"), Plain("23")][1..] == [EmptyCell, Plain("22"), Plain("23")];
    assert Skip({}, 0) == 0 && {} + Columns(0, 2) == {0, 1};
    assert [Slot(2, 0, 1, 2)] + [Slot(2, 2, 1, 1), Slot(2, 3, 1, 1), Slot(2, 4, 1, 1)] == [Slot(2, 0, 1, 2), Slot(2, 2, 1, 1), Slot(2, 3, 1, 1), Slot(2, 4, 1, 1)];
  }

  lemma MxCarried1() ensures CarriedByRow(MxL0.slots, 1) == {0}
  {
    assert MxL0.slots[1..][1..][1..][1..][1..] == [];
    assert Columns(0, 1) == {0};
  }

  lemma MxCarried2() ensures CarriedByRow(MxL0.slots, 2) + CarriedByRow(MxL1.slots, 2) == {}
  {
    assert MxL0.slots[1..][1..][1..][1..][1..] == [] && MxL1.slots[1..][1..][1..][1..] == [];
  }

  lemma MxLayouts()
    ensures Layouts(MixedFull.rows)[0] == MxL0 && Layouts(MixedFull.rows)[1] == MxL1 && Layouts(MixedFull.rows)[2] == MxL2
  {
    var rows := MixedFull.rows;
    FirstRow(rows);
    MxPlace0();
    SecondRow(rows);
    MxCarried1();
    MxPlace1();
    ThirdRow(rows);
    MxCarried2();
    MxPlace2();
  }

  lemma MxColumns()
    ensures ColumnOf(MixedFull.rows, 0, 0) == 0 && ColumnOf(MixedFull.rows, 0, 1) == 1 && ColumnOf(MixedFull.rows, 0, 2) == 2 && ColumnOf(MixedFull.rows, 0, 3) == 3 && ColumnOf(MixedFull.rows, 0, 4) == 4 && ColumnOf(MixedFull.rows, 1, 0) == 1 && ColumnOf(MixedFull.rows, 1, 1) == 2 && ColumnOf(MixedFull.rows, 1, 2) == 3 && ColumnOf(MixedFull.rows, 1, 3) == 4 && ColumnOf(MixedFull.rows, 2, 0) == 0 && ColumnOf(MixedFull.rows, 2, 1) == 2 && ColumnOf(MixedFull.rows, 2, 2) == 3 && ColumnOf(MixedFull.rows, 2, 3) == 4
  {
    MxLayouts();
  }

  const MxView: seq<ViewSection> := [
    ViewSection(Body, [
      [ViewCell(H, 2, 1, "00"), Th("01"), Th(""), Td("13"), Td("14")],
      [Th("11"), Th(""), Td("12"), Td("13")],
      [ViewCell(H, 1, 2, "20"), Th(""), Td("22"), Td("23")]])]

  lemma MxKinds0() ensures IsHeadingCell(MixedFull, 0, 0) && IsHeadingCell(MixedFull, 0, 1) && IsHeadingCell(MixedFull, 0, 2) && !IsHeadingCell(MixedFull, 0, 3) && !IsHeadingCell(MixedFull, 0, 4)
  {
    MxColumns();
  }

  lemma MxRow0() ensures ViewRow(MixedFull, 0) == [ViewCell(H, 2, 1, "00"), Th("01"), Th(""), Td("13"), Td("14")]
  {
    MxKinds0();
    FiveCellRow(MixedFull, 0, H, H, H, D, D);
    assert MixedFull.rows[0] == [Cell(2, 1, "00"), Plain("01"), EmptyCell, Plain("13"), Plain("14")];
  }

  lemma MxKinds1() ensures IsHeadingCell(MixedFull, 1, 0) && IsHeadingCell(MixedFull, 1, 1) && !IsHeadingCell(MixedFull, 1, 2) && !IsHeadingCell(MixedFull, 1, 3)
  {
    MxColumns();
  }

  lemma MxRow1() ensures ViewRow(MixedFull, 1) == [Th("11"), Th(""), Td("12"), Td("13")]
  {
    MxKinds1();
    FourCellRow(MixedFull, 1, H, H, D, D);
    assert MixedFull.rows[1] == [Plain("11"), EmptyCell, Plain("12"), Plain("13")];
  }

  lemma MxKinds2() ensures IsHeadingCell(MixedFull, 2, 0) && IsHeadingCell(MixedFull, 2, 1) && !IsHeadingCell(MixedFull, 2, 2) && !IsHeadingCell(MixedFull, 2, 3)
  {
    MxColumns();
  }

  lemma MxRow2() ensures ViewRow(MixedFull, 2) == [ViewCell(H, 1, 2, "20"), Th(""), Td("22"), Td("23")]
  {
    MxKinds2();
    FourCellRow(MixedFull, 2, H, H, D, D);
    assert MixedFull.rows[2] == [Cell(1, 2, "20"), EmptyCell, Plain("22"), Plain("23")];
  }

  /** The inserted cells take grid column 2 in every row, inside the three heading columns. */
  lemma MxShown() ensures Downcast(MixedFull) == MxView
  {
    BodyOnly(MixedFull);
    ThreeViewRows(MixedFull, 0);
    MxRow0();
    MxRow1();
    MxRow2();
  }

  /** The heading columns go from 2 to 3 and a cell is inserted in column 2 of each row: every cell left of column 3 is a heading cell. */
  method InsertHeadingColumn() returns (v: seq<ViewSection>)
    ensures v == MxView
  {
    var m := new TableModel(Mixed);
    m.SetHeadingColumns(3);
    MixedCellInserted();
    m.InsertCell(0, 2);
    MixedTopCellInserted();
    m.InsertCell(1, 1);
    MixedMiddleCellInserted();
    m.InsertCell(2, 1);
    MxShown();
    v := Downcast(m.Value());
  }

  // ---------------------------------------------------------------------------------------------
  // tests/converters/downcast.js:909-1006: changing the heading rows.

  const Three: Table := Table([
    [Plain("00"), Plain("01")],
    [Plain("10"), Plain("11")],
    [Plain("20"), Plain("21")]], 0, 0)

  const ThreeOneRow: Table := Three.(headingRows := 1)

  const ThreeTwoRows: Table := Three.(headingRows := 2)

  const Th2View: seq<ViewSection> := [
    ViewSection(Head, [
      [Th("00"), Th("01")],
      [Th("10"), Th("11")]]),
    ViewSection(Body, [[Td("20"), Td("21")]])]

  lemma Th2Row0() ensures ViewRow(ThreeTwoRows, 0) == [Th("00"), Th("01")]
  {
    TwoCellRow(ThreeTwoRows, 0, H, H);
    assert ThreeTwoRows.rows[0] == [Plain("00"), Plain("01")];
  }

  lemma Th2Row1() ensures ViewRow(ThreeTwoRows, 1) == [Th("10"), Th("11")]
  {
    TwoCellRow(ThreeTwoRows, 1, H, H);
    assert ThreeTwoRows.rows[1] == [Plain("10"), Plain("11")];
  }

  lemma Th2Row2() ensures ViewRow(ThreeTwoRows, 2) == [Td("20"), Td("21")]
  {
    TwoCellRow(ThreeTwoRows, 2, D, D);
    assert ThreeTwoRows.rows[2] == [Plain("20"), Plain("21")];
  }

  /** Two heading rows: a head of two rows and a body of one. */
  lemma Th2Shown() ensures Downcast(ThreeTwoRows) == Th2View
  {
    HeadAndBody(ThreeTwoRows);
    TwoViewRows(ThreeTwoRows, 0);
    OneViewRows(ThreeTwoRows, 2);
    Th2Row0();
    Th2Row1();
    Th2Row2();
  }

  /** Setting two heading rows moves the first two rows into a head. */
  method AddHeadingRows() returns (v: seq<ViewSection>)
    ensures v == Th2View
  {
    var m := new TableModel(Three);
    m.SetHeadingRows(2);
    Th2Shown();
    v := Downcast(m.Value());
  }

  /** Raising the heading rows from 1 to 2 gives the same view. */
  method RaiseHeadingRows() returns (v: seq<ViewSection>)
    ensures v == Th2View
  {
    var m := new TableModel(ThreeOneRow);
    m.SetHeadingRows(2);
    assert m.Value() == ThreeTwoRows;
    Th2Shown();
    v := Downcast(m.Value());
  }

  const Four: Table := Table([
    [Plain("00"), Plain("01")],
    [Plain("10"), Plain("11")],
    [Plain("20"), Plain("21")],
    [Plain("30"), Plain("31")]], 3, 0)

  const FourTwoRows: Table := Four.(headingRows := 2)

  const Fo2View: seq<ViewSection> := [
    ViewSection(Head, [
      [Th("00"), Th("01")],
      [Th("10"), Th("11")]]),
    ViewSection(Body, [
      [Td("20"), Td("21")],
      [Td("30"), Td("31")]])]

  lemma Fo2Row0() ensures ViewRow(FourTwoRows, 0) == [Th("00"), Th("01")]
  {
    TwoCellRow(FourTwoRows, 0, H, H);
    assert FourTwoRows.rows[0] == [Plain("00"), Plain("01")];
  }

  lemma Fo2Row1() ensures ViewRow(FourTwoRows, 1) == [Th("10"), Th("11")]
  {
    TwoCellRow(FourTwoRows, 1, H, H);
    assert FourTwoRows.rows[1] == [Plain("10"), Plain("11")];
  }

  lemma Fo2Row2() ensures ViewRow(FourTwoRows, 2) == [Td("20"), Td("21")]
  {
    TwoCellRow(FourTwoRows, 2, D, D);
    assert FourTwoRows.rows[2] == [Plain("20"), Plain("21")];
  }

  lemma Fo2Row3() ensures ViewRow(FourTwoRows, 3) == [Td("30"), Td("31")]
  {
    TwoCellRow(FourTwoRows, 3, D, D);
    assert FourTwoRows.rows[3] == [Plain("30"), Plain("31")];
  }

  /** Two heading rows out of four. */
  lemma Fo2Shown() ensures Downcast(FourTwoRows) == Fo2View
  {
    HeadAndBody(FourTwoRows);
    TwoViewRows(FourTwoRows, 0);
    TwoViewRows(FourTwoRows, 2);
    Fo2Row0();
    Fo2Row1();
    Fo2Row2();
    Fo2Row3();
  }

  /** Lowering the heading rows from 3 to 2 moves the third row to the body. */
  method LowerHeadingRows() returns (v: seq<ViewSection>)
    ensures v == Fo2View
  {
    var m := new TableModel(Four);
    m.SetHeadingRows(2);
    Fo2Shown();
    v := Downcast(m.Value());
  }

  const SquareHead: Table := Square.(headingRows := 2)

  // `SqH` abbreviates the table `SquareHead` in the names below.
  const SqHView: seq<ViewSection> := [
    ViewSection(Head, [
      [Th("00"), Th("01")],
      [Th("10"), Th("11")]])]

  lemma SqHRow0() ensures ViewRow(SquareHead, 0) == [Th("00"), Th("01")]
  {
    TwoCellRow(SquareHead, 0, H, H);
    assert SquareHead.rows[0] == [Plain("00"), Plain("01")];
  }

  lemma SqHRow1() ensures ViewRow(SquareHead, 1) == [Th("10"), Th("11")]
  {
    TwoCellRow(SquareHead, 1, H, H);
    assert SquareHead.rows[1] == [Plain("10"), Plain("11")];
  }

  /** Every row a heading row: a head and no body. */
  lemma SqHShown() ensures Downcast(SquareHead) == SqHView
  {
    HeadOnly(SquareHead);
    TwoViewRows(SquareHead, 0);
    SqHRow0();
    SqHRow1();
  }

  /** Removing the attribute moves every row to the body. */
  method RemoveHeadingRows() returns (v: seq<ViewSection>)
    ensures v == SqView
  {
    var m := new TableModel(SquareHead);
    m.SetHeadingRows(0);
    assert m.Value() == Square;
    SqShown();
    v := Downcast(m.Value());
  }

  /** Making both rows heading rows leaves no body. */
  method HeadingRowsWithoutBody() returns (v: seq<ViewSection>)
    ensures v == SqHView
  {
    var m := new TableModel(Square);
    m.SetHeadingRows(2);
    SqHShown();
    v := Downcast(m.Value());
  }

  // ---------------------------------------------------------------------------------------------
  // tests/converters/downcast.js:1029-1079: rows inserted while the heading rows are raised.

  const SquareTop: Table := Square.(headingRows := 1)

  const SquareTopGrown: Table := Table([
    [EmptyCell, EmptyCell],
    [Plain("00"), Plain("01")],
    [Plain("10"), Plain("11")]], 2, 0)

  lemma SquareTopRowInserted() ensures RowInserted(SquareTop.rows, 0, [EmptyCell, EmptyCell]) == SquareTopGrown.rows
  {
    var out := RowInserted(SquareTop.rows, 0, [EmptyCell, EmptyCell]);
    assert out[0] == SquareTopGrown.rows[0] && out[1] == SquareTopGrown.rows[1] && out[2] == SquareTopGrown.rows[2];
  }

  // `Stg` abbreviates the table `SquareTopGrown` in the names below.
  const StgView: seq<ViewSection> := [
    ViewSection(Head, [
      [Th(""), Th("")],
      [Th("00"), Th("01")]]),
    ViewSection(Body, [[Td("10"), Td("11")]])]

  lemma StgRow0() ensures ViewRow(SquareTopGrown, 0) == [Th(""), Th("")]
  {
    TwoCellRow(SquareTopGrown, 0, H, H);
    assert SquareTopGrown.rows[0] == [EmptyCell, EmptyCell];
  }

  lemma StgRow1() ensures ViewRow(SquareTopGrown, 1) == [Th("00"), Th("01")]
  {
    TwoCellRow(SquareTopGrown, 1, H, H);
    assert SquareTopGrown.rows[1] == [Plain("00"), Plain("01")];
  }

  lemma StgRow2() ensures ViewRow(SquareTopGrown, 2) == [Td("10"), Td("11")]
  {
    TwoCellRow(SquareTopGrown, 2, D, D);
    assert SquareTopGrown.rows[2] == [Plain("10"), Plain("11")];
  }

  /** The new first row and `00`'s row form the head. */
  lemma StgShown() ensures Downcast(SquareTopGrown) == StgView
  {
    HeadAndBody(SquareTopGrown);
    TwoViewRows(SquareTopGrown, 0);
    OneViewRows(SquareTopGrown, 2);
    StgRow0();
    StgRow1();
    StgRow2();
  }

  /** The heading rows go from 1 to 2 and a row is inserted at the start. */
  method InsertHeadingRowAtStart() returns (v: seq<ViewSection>)
    ensures v == StgView
  {
    var m := new TableModel(SquareTop);
    m.SetHeadingRows(2);
    SquareTopRowInserted();
    m.InsertRow(0, [EmptyCell, EmptyCell]);
    StgShown();
    v := Downcast(m.Value());
  }

  const ThreeGrown: Table := Table([
    [Plain("00"), Plain("01")],
    [EmptyCell, EmptyCell],
    [Plain("10"), Plain("11")],
    [Plain("20"), Plain("21")]], 2, 0)

  lemma ThreeOneRowRowInserted() ensures RowInserted(ThreeOneRow.rows, 1, [EmptyCell, EmptyCell]) == ThreeGrown.rows
  {
    var out := RowInserted(ThreeOneRow.rows, 1, [EmptyCell, EmptyCell]);
    assert out[0] == ThreeGrown.rows[0] && out[1] == ThreeGrown.rows[1] && out[2] == ThreeGrown.rows[2] && out[3] == ThreeGrown.rows[3];
  }

  // `Tg` abbreviates the table `ThreeGrown` in the names below.
  const TgView: seq<ViewSection> := [
    ViewSection(Head, [
      [Th("00"), Th("01")],
      [Th(""), Th("")]]),
    ViewSection(Body, [
      [Td("10"), Td("11")],
      [Td("20"), Td("21")]])]

  lemma TgRow0() ensures ViewRow(ThreeGrown, 0) == [Th("00"), Th("01")]
  {
    TwoCellRow(ThreeGrown, 0, H, H);
    assert ThreeGrown.rows[0] == [Plain("00"), Plain("01")];
  }

  lemma TgRow1() ensures ViewRow(ThreeGrown, 1) == [Th(""), Th("")]
  {
    TwoCellRow(ThreeGrown, 1, H, H);
    assert ThreeGrown.rows[1] == [EmptyCell, EmptyCell];
  }

  lemma TgRow2() ensures ViewRow(ThreeGrown, 2) == [Td("10"), Td("11")]
  {
    TwoCellRow(ThreeGrown, 2, D, D);
    assert ThreeGrown.rows[2] == [Plain("10"), Plain("11")];
  }

  lemma TgRow3() ensures ViewRow(ThreeGrown, 3) == [Td("20"), Td("21")]
  {
    TwoCellRow(ThreeGrown, 3, D, D);
    assert ThreeGrown.rows[3] == [Plain("20"), Plain("21")];
  }

  /** The new row joins the head after `00`'s row. */
  lemma TgShown() ensures Downcast(ThreeGrown) == TgView
  {
    HeadAndBody(ThreeGrown);
    TwoViewRows(ThreeGrown, 0);
    TwoViewRows(ThreeGrown, 2);
    TgRow0();
    TgRow1();
    TgRow2();
    TgRow3();
  }

  /** The heading rows go from 1 to 2 and a row is inserted at index 1. */
  method InsertHeadingRowBelowHead() returns (v: seq<ViewSection>)
    ensures v == TgView
  {
    var m := new TableModel(ThreeOneRow);
    m.SetHeadingRows(2);
    ThreeOneRowRowInserted();
    m.InsertRow(1, [EmptyCell, EmptyCell]);
    TgShown();
    v := Downcast(m.Value());
  }

}
