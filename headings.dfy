/**
 * The table as the editing view renders it: the rows below `headingRows` form the head section and
 * the rest the body, a section without rows is left out, and a literal cell is rendered as a
 * heading cell when its row is a heading row or when the grid column it starts in is below
 * `headingColumns`. The converters keep the view equal to this rendering of the model after every
 * change, so it is modelled as a function of the model table.
 */
module Headings {
  import opened Tables
  import opened Grid

  /** `th` or `td`. */
  datatype CellKind = HeadingCell | DataCell

  /** A rendered cell: its kind, the spans it keeps, and its contents. */
  datatype ViewCell = ViewCell(kind: CellKind, rowspan: Span, colspan: Span, contents: string)

  /** `thead` or `tbody`. */
  datatype SectionKind = Head | Body

  datatype ViewSection = ViewSection(kind: SectionKind, rows: seq<seq<ViewCell>>)

  /** Whether literal cell `k` of row `r` is rendered as a heading cell. */
  predicate IsHeadingCell(t: Table, r: nat, k: nat)
    requires r < |t.rows| && k < |t.rows[r]|
  {
    r < t.headingRows || ColumnOf(t.rows, r, k) < t.headingColumns
  }

  /** The rendering of row `r`: one view cell per literal cell, in order. */
  function ViewRow(t: Table, r: nat): (v: seq<ViewCell>)
    requires r < |t.rows|
    ensures |v| == |t.rows[r]|
  {
    seq(|t.rows[r]|, k requires 0 <= k < |t.rows[r]| =>
      var c := t.rows[r][k];
      ViewCell(if IsHeadingCell(t, r, k) then HeadingCell else DataCell, c.rowspan, c.colspan, c.contents))
  }

  /** The renderings of rows `lo .. hi - 1`. */
  function ViewRows(t: Table, lo: nat, hi: nat): (v: seq<seq<ViewCell>>)
    requires lo <= hi <= |t.rows|
    ensures |v| == hi - lo
    ensures forall j :: 0 <= j < hi - lo ==> v[j] == ViewRow(t, lo + j)
  {
    seq(hi - lo, j requires 0 <= j < hi - lo => ViewRow(t, lo + j))
  }

  /** The number of rows in the head section. */
  function HeadCount(t: Table): nat
  {
    if t.headingRows < |t.rows| then t.headingRows else |t.rows|
  }

  /** The rendered table: the head section, then the body section, each only when it has rows. */
  function Downcast(t: Table): seq<ViewSection>
  {
    var h := HeadCount(t);
    (if h > 0 then [ViewSection(Head, ViewRows(t, 0, h))] else [])
    + (if h < |t.rows| then [ViewSection(Body, ViewRows(t, h, |t.rows|))] else [])
  }

  /** The rows of all sections, in order. */
  function AllRows(sections: seq<ViewSection>): seq<seq<ViewCell>>
  {
    if sections == [] then [] else sections[0].rows + AllRows(sections[1..])
  }

  /**
   * The sections hold every row exactly once and in order, the head before the body, no section
   * is empty, and a row is in the head exactly when its index is below `headingRows`.
   */
  lemma DowncastSections(t: Table)
    ensures var d := Downcast(t);
            && AllRows(d) == seq(|t.rows|, r requires 0 <= r < |t.rows| => ViewRow(t, r))
            && (forall i :: 0 <= i < |d| ==> |d[i].rows| > 0)
            && (forall i :: 0 <= i < |d| ==> (d[i].kind == Head <==> i == 0 && t.headingRows > 0))
            && |d| <= 2
  {
    var d := Downcast(t);
    var h := HeadCount(t);
    var all := seq(|t.rows|, r requires 0 <= r < |t.rows| => ViewRow(t, r));
    assert all == ViewRows(t, 0, h) + ViewRows(t, h, |t.rows|);
    if h > 0 && h < |t.rows| {
      assert d[1..] == [ViewSection(Body, ViewRows(t, h, |t.rows|))];
      assert AllRows(d[1..]) == ViewRows(t, h, |t.rows|) + AllRows([]);
    } else if h > 0 {
      assert ViewRows(t, h, |t.rows|) == [];
      assert AllRows(d) == ViewRows(t, 0, h) + AllRows([]);
    } else if h < |t.rows| {
      assert ViewRows(t, 0, h) == [];
      assert AllRows(d) == ViewRows(t, h, |t.rows|) + AllRows([]);
    }
  }

  /**
   * Where model cell `(r, k)` ends up: in the head at row `r` when `r` is a heading row, in the
   * body at row `r - headingRows` otherwise; it is a heading cell exactly when its row is below
   * `headingRows` or its grid column is below `headingColumns`, and it keeps its spans and contents.
   */
  lemma DowncastCellAt(t: Table, r: nat, k: nat)
    requires r < |t.rows| && k < |t.rows[r]|
    ensures var d := Downcast(t);
            var c := t.rows[r][k];
            var s := if r < t.headingRows then 0 else (if t.headingRows > 0 then 1 else 0);
            var j := if r < t.headingRows then r else r - t.headingRows;
            && s < |d| && j < |d[s].rows| && k < |d[s].rows[j]|
            && d[s].kind == (if r < t.headingRows then Head else Body)
            && var v := d[s].rows[j][k];
               && (v.kind == HeadingCell <==> r < t.headingRows || ColumnOf(t.rows, r, k) < t.headingColumns)
               && v.rowspan == c.rowspan && v.colspan == c.colspan && v.contents == c.contents
  {
  }

  /** Without heading rows or heading columns, the table renders as a single body of data cells. */
  lemma NoHeadings(t: Table)
    requires t.headingRows == 0 && t.headingColumns == 0 && |t.rows| > 0
    ensures var d := Downcast(t);
            && |d| == 1 && d[0].kind == Body && |d[0].rows| == |t.rows|
            && forall j, k :: 0 <= j < |d[0].rows| && 0 <= k < |d[0].rows[j]| ==> d[0].rows[j][k].kind == DataCell
  {
  }

  /** With at least as many heading rows as rows, the table renders as a head section only. */
  lemma AllHeadingRows(t: Table)
    requires t.headingRows >= |t.rows| > 0
    ensures var d := Downcast(t);
            && |d| == 1 && d[0].kind == Head && |d[0].rows| == |t.rows|
            && forall j, k :: 0 <= j < |d[0].rows| && 0 <= k < |d[0].rows[j]| ==> d[0].rows[j][k].kind == HeadingCell
  {
  }

  /**
   * Setting `headingColumns` to `n` re-renders exactly the cells of the non-heading rows whose grid
   * column lies between the old and the new value.
   */
  lemma HeadingColumnsChange(t: Table, n: nat, r: nat, k: nat)
    requires r < |t.rows| && k < |t.rows[r]|
    ensures var t' := t.(headingColumns := n);
            var lo := if n < t.headingColumns then n else t.headingColumns;
            var hi := if n < t.headingColumns then t.headingColumns else n;
            (IsHeadingCell(t', r, k) != IsHeadingCell(t, r, k)) <==>
              (r >= t.headingRows && lo <= ColumnOf(t.rows, r, k) < hi)
  {
  }

  /**
   * Setting `headingRows` to `n` re-renders exactly the cells of the rows between the old and the
   * new value whose grid column is not a heading column.
   */
  lemma HeadingRowsChange(t: Table, n: nat, r: nat, k: nat)
    requires r < |t.rows| && k < |t.rows[r]|
    ensures var t' := t.(headingRows := n);
            var lo := if n < t.headingRows then n else t.headingRows;
            var hi := if n < t.headingRows then t.headingRows else n;
            (IsHeadingCell(t', r, k) != IsHeadingCell(t, r, k)) <==>
              (lo <= r < hi && ColumnOf(t.rows, r, k) >= t.headingColumns)
  {
  }
}
