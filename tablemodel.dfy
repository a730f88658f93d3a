/**
 * The table element of the document model as the editing code changes it in place: its rows, its
 * heading counters, the writer operations that structural edits are made of, and the post-fixer
 * that repairs the table after each change.
 */
module TableEditing {
  import opened Tables
  import opened Grid
  import opened PostFixer

  // ---------------------------------------------------------------------------------------------
  // The edits, on values.

  /** `rows` with `row` inserted before index `index`. */
  function RowInserted(rows: seq<seq<Cell>>, index: nat, row: seq<Cell>): (out: seq<seq<Cell>>)
    requires index <= |rows|
    ensures |out| == |rows| + 1 && out[index] == row
    ensures forall r :: 0 <= r < index ==> out[r] == rows[r]
    ensures forall r :: index < r < |out| ==> out[r] == rows[r - 1]
  {
    rows[..index] + [row] + rows[index..]
  }

  /** `rows` without row `index`. */
  function RowRemoved(rows: seq<seq<Cell>>, index: nat): (out: seq<seq<Cell>>)
    requires index < |rows|
    ensures |out| == |rows| - 1
    ensures forall r :: 0 <= r < index ==> out[r] == rows[r]
    ensures forall r :: index <= r < |out| ==> out[r] == rows[r + 1]
  {
    rows[..index] + rows[index + 1..]
  }

  /** `row` with `cell` inserted before index `index`. */
  function CellInserted(row: seq<Cell>, index: nat, cell: Cell): (out: seq<Cell>)
    requires index <= |row|
    ensures |out| == |row| + 1 && out[index] == cell
    ensures forall k :: 0 <= k < index ==> out[k] == row[k]
    ensures forall k :: index < k < |out| ==> out[k] == row[k - 1]
  {
    row[..index] + [cell] + row[index..]
  }

  /** `row` without cell `index`. */
  function CellRemoved(row: seq<Cell>, index: nat): (out: seq<Cell>)
    requires index < |row|
    ensures |out| == |row| - 1
    ensures forall k :: 0 <= k < index ==> out[k] == row[k]
    ensures forall k :: index <= k < |out| ==> out[k] == row[k + 1]
  {
    row[..index] + row[index + 1..]
  }

  /** Whether `index` names a distinct row of `rows` with a cell at `column`, for each index in `which`. */
  predicate ColumnTargets(rows: seq<seq<Cell>>, column: nat, which: seq<nat>, extra: nat)
  {
    && (forall i :: 0 <= i < |which| ==> which[i] < |rows| && column + extra <= |rows[which[i]]|)
    && (forall i, j :: 0 <= i < j < |which| ==> which[i] != which[j])
  }

  /** The rows listed in `which` with their cell at `column` removed. */
  function ColumnRemoved(rows: seq<seq<Cell>>, column: nat, which: seq<nat>): (out: seq<seq<Cell>>)
    requires ColumnTargets(rows, column, which, 1)
    ensures |out| == |rows|
    ensures forall r :: 0 <= r < |rows| && r in which ==> out[r] == CellRemoved(rows[r], column)
    ensures forall r :: 0 <= r < |rows| && r !in which ==> out[r] == rows[r]
  {
    seq(|rows|, r requires 0 <= r < |rows| => if r in which then CellRemoved(rows[r], column) else rows[r])
  }

  /** The rows listed in `which` with an empty cell inserted before index `column`. */
  function ColumnInserted(rows: seq<seq<Cell>>, column: nat, which: seq<nat>): (out: seq<seq<Cell>>)
    requires ColumnTargets(rows, column, which, 0)
    ensures |out| == |rows|
    ensures forall r :: 0 <= r < |rows| && r in which ==> out[r] == CellInserted(rows[r], column, EmptyCell)
    ensures forall r :: 0 <= r < |rows| && r !in which ==> out[r] == rows[r]
  {
    seq(|rows|, r requires 0 <= r < |rows| => if r in which then CellInserted(rows[r], column, EmptyCell) else rows[r])
  }

  /** Removing a row that was just inserted gives the rows back. */
  lemma RemoveInsertedRow(rows: seq<seq<Cell>>, index: nat, row: seq<Cell>)
    requires index <= |rows|
    ensures RowRemoved(RowInserted(rows, index, row), index) == rows
  {
    assert RowRemoved(RowInserted(rows, index, row), index) == rows[..index] + rows[index..];
    assert rows[..index] + rows[index..] == rows;
  }

  /** Removing a column of cells that was just inserted in the same rows gives the rows back. */
  lemma RemoveInsertedColumn(rows: seq<seq<Cell>>, column: nat, which: seq<nat>)
    requires ColumnTargets(rows, column, which, 0)
    ensures ColumnTargets(ColumnInserted(rows, column, which), column, which, 1)
    ensures ColumnRemoved(ColumnInserted(rows, column, which), column, which) == rows
  {
    var mid := ColumnInserted(rows, column, which);
    forall i | 0 <= i < |which|
      ensures column + 1 <= |mid[which[i]]|
    {
    }
    var out := ColumnRemoved(mid, column, which);
    forall r | 0 <= r < |rows|
      ensures out[r] == rows[r]
    {
      if r in which {
        assert out[r] == CellRemoved(CellInserted(rows[r], column, EmptyCell), column);
        assert out[r] == rows[r][..column] + rows[r][column..];
        assert rows[r][..column] + rows[r][column..] == rows[r];
      }
    }
  }

  /**
   * In a table without rowspans, a cell inserted at index `i` of row `r` starts where cell `i` used
   * to start; the cells before it keep their columns, the cells after it move right by its colspan,
   * and no other row moves.
   */
  lemma CellInsertedShifts(rows: seq<seq<Cell>>, r: nat, i: nat, c: Cell)
    requires SingleRowCells(rows) && c.rowspan == 1
    requires r < |rows| && i <= |rows[r]|
    ensures var rows' := rows[r := CellInserted(rows[r], i, c)];
      && ColumnOf(rows', r, i) == ColspanSum(rows[r][..i])
      && (forall k :: 0 <= k < i ==> ColumnOf(rows', r, k) == ColumnOf(rows, r, k))
      && (forall k :: i <= k < |rows[r]| ==> ColumnOf(rows', r, k + 1) == ColumnOf(rows, r, k) + c.colspan)
      && (forall q, k :: 0 <= q < |rows| && q != r && 0 <= k < |rows[q]| ==> ColumnOf(rows', q, k) == ColumnOf(rows, q, k))
  {
    var rows' := rows[r := CellInserted(rows[r], i, c)];
    CellInsertedSingleRow(rows, r, i, c);
    SingleRowLayouts(rows);
    SingleRowLayouts(rows');
    CellInsertedSums(rows[r], i, c);
  }

  /** Inserting a cell of rowspan 1 keeps every rowspan 1. */
  lemma CellInsertedSingleRow(rows: seq<seq<Cell>>, r: nat, i: nat, c: Cell)
    requires SingleRowCells(rows) && c.rowspan == 1
    requires r < |rows| && i <= |rows[r]|
    ensures SingleRowCells(rows[r := CellInserted(rows[r], i, c)])
  {
    var row := rows[r];
    var row' := CellInserted(row, i, c);
    var rows': seq<seq<Cell>> := rows[r := row'];
    forall q, k | 0 <= q < |rows'| && 0 <= k < |rows'[q]|
      ensures rows'[q][k].rowspan == 1
    {
      if q == r && k != i {
        assert k < i ==> row'[k] == row[k];
        assert k > i ==> row'[k] == row[k - 1];
      }
    }
  }

  /** The colspans before each cell of a row with cell `c` inserted at `i`. */
  lemma CellInsertedSums(row: seq<Cell>, i: nat, c: Cell)
    requires i <= |row|
    ensures var row' := CellInserted(row, i, c);
      && ColspanSum(row'[..i]) == ColspanSum(row[..i])
      && (forall k :: 0 <= k < i ==> ColspanSum(row'[..k]) == ColspanSum(row[..k]))
      && (forall k :: i <= k < |row| ==> ColspanSum(row'[..k + 1]) == ColspanSum(row[..k]) + c.colspan)
  {
    var row' := CellInserted(row, i, c);
    assert row'[..i] == row[..i];
    forall k | 0 <= k < i
      ensures ColspanSum(row'[..k]) == ColspanSum(row[..k])
    {
      assert row'[..k] == row[..k];
    }
    forall k | i <= k < |row|
      ensures ColspanSum(row'[..k + 1]) == ColspanSum(row[..k]) + c.colspan
    {
      assert row'[..k + 1] == row[..i] + ([c] + row[i..k]);
      assert row[..k] == row[..i] + row[i..k];
      ColspanSumAppend(row[..i], [c] + row[i..k]);
      ColspanSumAppend([c], row[i..k]);
      ColspanSumAppend(row[..i], row[i..k]);
      assert ([c] + row[i..k])[1..] == row[i..k];
    }
  }

  // ---------------------------------------------------------------------------------------------
  // The table element.

  /** A table element of the document model, changed in place by the writer and the post-fixer. */
  class TableModel {
    var rows: seq<seq<Cell>>
    var headingRows: nat
    var headingColumns: nat

    /** The table the element currently holds. */
    function Value(): Table
      reads this
    {
      Table(rows, headingRows, headingColumns)
    }

    constructor (t: Table)
      ensures Value() == t
    {
      rows := t.rows;
      headingRows := t.headingRows;
      headingColumns := t.headingColumns;
    }

    /** Inserts a parsed row before row `index` (`index == |rows|` appends it). */
    method InsertRow(index: nat, row: seq<Cell>)
      requires index <= |rows|
      modifies this
      ensures rows == RowInserted(old(rows), index, row)
      ensures headingRows == old(headingRows) && headingColumns == old(headingColumns)
    {
      rows := rows[..index] + [row] + rows[index..];
    }

    /** Removes row `index`. */
    method RemoveRow(index: nat)
      requires index < |rows|
      modifies this
      ensures rows == RowRemoved(old(rows), index)
      ensures headingRows == old(headingRows) && headingColumns == old(headingColumns)
    {
      rows := rows[..index] + rows[index + 1..];
    }

    /** Inserts a new, empty table cell before cell `index` of row `row`. */
    method InsertCell(row: nat, index: nat)
      requires row < |rows| && index <= |rows[row]|
      modifies this
      ensures rows == old(rows)[row := CellInserted(old(rows)[row], index, EmptyCell)]
      ensures headingRows == old(headingRows) && headingColumns == old(headingColumns)
    {
      rows := rows[row := rows[row][..index] + [EmptyCell] + rows[row][index..]];
    }

    /** Sets the `rowspan` attribute of cell `index` of row `row`. */
    method SetRowspan(row: nat, index: nat, rowspan: Span)
      requires row < |rows| && index < |rows[row]|
      modifies this
      ensures rows == old(rows)[row := old(rows)[row][index := old(rows)[row][index].(rowspan := rowspan)]]
      ensures headingRows == old(headingRows) && headingColumns == old(headingColumns)
    {
      rows := rows[row := rows[row][index := rows[row][index].(rowspan := rowspan)]];
    }

    /** Sets the `colspan` attribute of cell `index` of row `row`. */
    method SetColspan(row: nat, index: nat, colspan: Span)
      requires row < |rows| && index < |rows[row]|
      modifies this
      ensures rows == old(rows)[row := old(rows)[row][index := old(rows)[row][index].(colspan := colspan)]]
      ensures headingRows == old(headingRows) && headingColumns == old(headingColumns)
    {
      rows := rows[row := rows[row][index := rows[row][index].(colspan := colspan)]];
    }

    /** Sets the `headingRows` attribute; 0 stands for removing it. */
    method SetHeadingRows(n: nat)
      modifies this
      ensures Value() == old(Value()).(headingRows := n)
    {
      headingRows := n;
    }

    /** Sets the `headingColumns` attribute; 0 stands for removing it. */
    method SetHeadingColumns(n: nat)
      modifies this
      ensures Value() == old(Value()).(headingColumns := n)
    {
      headingColumns := n;
    }

    /** Removes the cell at index `column` from each of the rows listed in `which`, one row at a time. */
    method RemoveColumn(column: nat, which: seq<nat>)
      requires ColumnTargets(rows, column, which, 1)
      modifies this
      ensures rows == ColumnRemoved(old(rows), column, which)
      ensures headingRows == old(headingRows) && headingColumns == old(headingColumns)
    {
      ghost var start := rows;
      var i := 0;
      while i < |which|
        invariant 0 <= i <= |which|
        invariant |rows| == |start|
        invariant forall r :: 0 <= r < |rows| && r in which[..i] ==> rows[r] == CellRemoved(start[r], column)
        invariant forall r :: 0 <= r < |rows| && r !in which[..i] ==> rows[r] == start[r]
        invariant headingRows == old(headingRows) && headingColumns == old(headingColumns)
      {
        var r := which[i];
        assert r !in which[..i];
        rows := rows[r := CellRemoved(rows[r], column)];
        assert which[..i + 1] == which[..i] + [r];
        i := i + 1;
      }
      assert which[..i] == which;
    }

    /** Inserts a new, empty cell at index `column` into each of the rows listed in `which`, one row at a time. */
    method InsertColumn(column: nat, which: seq<nat>)
      requires ColumnTargets(rows, column, which, 0)
      modifies this
      ensures rows == ColumnInserted(old(rows), column, which)
      ensures headingRows == old(headingRows) && headingColumns == old(headingColumns)
    {
      ghost var start := rows;
      var i := 0;
      while i < |which|
        invariant 0 <= i <= |which|
        invariant |rows| == |start|
        invariant forall r :: 0 <= r < |rows| && r in which[..i] ==> rows[r] == CellInserted(start[r], column, EmptyCell)
        invariant forall r :: 0 <= r < |rows| && r !in which[..i] ==> rows[r] == start[r]
        invariant headingRows == old(headingRows) && headingColumns == old(headingColumns)
      {
        var r := which[i];
        assert r !in which[..i];
        rows := rows[r := CellInserted(rows[r], column, EmptyCell)];
        assert which[..i + 1] == which[..i] + [r];
        i := i + 1;
      }
      assert which[..i] == which;
    }

    /**
     * The first step of the post-fixer: trims each rowspan that reaches past the end of its
     * section. Reports whether a cell had to be trimmed.
     */
    method FixRowspans() returns (wasFixed: bool)
      modifies this
      ensures Value() == ClampRowspans(old(Value()))
      ensures wasFixed == !RowspansFit(old(Value()))
    {
      ghost var t := Value();
      ghost var goal := ClampRowspans(t);
      wasFixed := false;
      var r := 0;
      while r < |rows|
        invariant 0 <= r <= |rows| == |t.rows|
        invariant headingRows == t.headingRows && headingColumns == t.headingColumns
        invariant forall i :: 0 <= i < r ==> rows[i] == goal.rows[i]
        invariant forall i :: r <= i < |rows| ==> rows[i] == t.rows[i]
        invariant wasFixed <==>
          exists i, k :: 0 <= i < r && 0 <= k < |t.rows[i]| && i + t.rows[i][k].rowspan > RowLimit(t, i)
      {
        var limit := if r < headingRows then headingRows else |rows|;
        var trimmed := TrimRowspans(r, limit);
        wasFixed := wasFixed || trimmed;
        assert rows[r] == goal.rows[r];
        r := r + 1;
      }
      assert rows == goal.rows;
    }

    /** Trims every cell of row `r` whose rowspan reaches past row `limit`; reports whether one did. */
    method TrimRowspans(r: nat, limit: nat) returns (trimmed: bool)
      requires r < |rows| && r < limit
      modifies this
      ensures rows == old(rows)[r := TrimmedRow(old(rows)[r], r, limit)]
      ensures headingRows == old(headingRows) && headingColumns == old(headingColumns)
      ensures trimmed <==> exists k :: 0 <= k < |old(rows)[r]| && r + old(rows)[r][k].rowspan > limit
    {
      ghost var row := rows[r];
      ghost var goal := TrimmedRow(row, r, limit);
      trimmed := false;
      var k := 0;
      while k < |rows[r]|
        invariant |rows| == |old(rows)| && r < |rows|
        invariant 0 <= k <= |rows[r]| == |row|
        invariant rows == old(rows)[r := rows[r]]
        invariant rows[r][..k] == goal[..k] && rows[r][k..] == row[k..]
        invariant headingRows == old(headingRows) && headingColumns == old(headingColumns)
        invariant trimmed <==> exists j :: 0 <= j < k && r + row[j].rowspan > limit
      {
        var c := rows[r][k];
        assert c == row[k];
        if r + c.rowspan > limit {
          rows := rows[r := rows[r][k := c.(rowspan := limit - r)]];
          trimmed := true;
        }
        assert rows[r][..k + 1] == goal[..k + 1];
        k := k + 1;
      }
      assert rows[r] == rows[r][..k] && goal == goal[..k];
    }

    /**
     * The second step of the post-fixer: appends empty cells to every row until it is as wide as
     * the widest row. Reports whether a row had to be padded.
     */
    method FixRowSizes() returns (wasFixed: bool)
      modifies this
      ensures Value() == PadRows(old(Value()))
      ensures wasFixed == !EqualWidths(old(Value()))
    {
      ghost var t := Value();
      var widths := RowWidths(rows);
      var maxColumns := Largest(widths);
      ghost var ks := Shortfalls(t.rows);
      assert forall j :: 0 <= j < |ks| ==> ks[j] == maxColumns - widths[j];
      wasFixed := PadEachRow(widths, maxColumns, ks);
      EqualWidthsNoShortfall(t);
    }

    /**
     * The loop of the second step: row `r`, `widths[r]` columns wide, gets `maxColumns - widths[r]`
     * empty cells, which is `ks[r]`. Reports whether any row got one.
     */
    method PadEachRow(widths: seq<nat>, maxColumns: nat, ghost ks: seq<nat>) returns (wasFixed: bool)
      requires |widths| == |ks| == |rows|
      requires forall j :: 0 <= j < |ks| ==> ks[j] == maxColumns - widths[j]
      modifies this
      ensures rows == Extend(old(rows), ks)
      ensures headingRows == old(headingRows) && headingColumns == old(headingColumns)
      ensures wasFixed <==> exists j :: 0 <= j < |ks| && ks[j] > 0
    {
      wasFixed := false;
      var r := 0;
      while r < |rows|
        invariant 0 <= r <= |rows| == |old(rows)|
        invariant headingRows == old(headingRows) && headingColumns == old(headingColumns)
        invariant forall j :: 0 <= j < r ==> rows[j] == old(rows)[j] + Empties(ks[j])
        invariant forall j :: r <= j < |rows| ==> rows[j] == old(rows)[j]
        invariant wasFixed <==> exists j :: 0 <= j < r && ks[j] > 0
      {
        var columnsToInsert := maxColumns - widths[r];
        AppendEmptyCells(r, columnsToInsert);
        if columnsToInsert > 0 {
          wasFixed := true;
        }
        r := r + 1;
      }
      ExtendedRows(old(rows), ks, rows);
    }

    /** Appends `count` new empty cells at the end of row `r`, one at a time. */
    method AppendEmptyCells(r: nat, count: nat)
      requires r < |rows|
      modifies this
      ensures rows == old(rows)[r := old(rows)[r] + Empties(count)]
      ensures headingRows == old(headingRows) && headingColumns == old(headingColumns)
    {
      ghost var row := rows[r];
      assert row + Empties(0) == row;
      var n := 0;
      while n < count
        invariant 0 <= n <= count
        invariant |rows| == |old(rows)| && r < |rows|
        invariant rows == old(rows)[r := row + Empties(n)]
        invariant headingRows == old(headingRows) && headingColumns == old(headingColumns)
      {
        assert row + Empties(n + 1) == row + Empties(n) + [EmptyCell];
        rows := rows[r := rows[r] + [EmptyCell]];
        n := n + 1;
      }
    }

    /** One run of the post-fixer callback: trims rowspans, then pads rows; reports whether either changed something. */
    method PostFixPass() returns (wasFixed: bool)
      modifies this
      ensures Value() == Pass(old(Value()))
      ensures wasFixed == PassFixes(old(Value()))
    {
      var trimmed := FixRowspans();
      var padded := FixRowSizes();
      wasFixed := padded || trimmed;
    }

    /**
     * The post-fixer as the document model runs it after a change: the callback runs again for as
     * long as it reports a change, which leaves the repaired table.
     */
    method PostFix()
      modifies this
      ensures Value() == Repaired(old(Value()))
    {
      ghost var t := Value();
      var again := PostFixPass();
      PassTowardsRepaired(t);
      PadRowsKeepsFit(ClampRowspans(t));
      AfterPass(t, again);
      while again
        invariant Repaired(Value()) == Repaired(t)
        invariant RowspansFit(Value())
        invariant !again ==> Value() == Repaired(t)
        decreases Measure(Value()), if EqualWidths(Value()) then 0 else 1, if again then 1 else 0
      {
        ghost var before := Value();
        again := PostFixPass();
        PassTowardsRepaired(before);
        ClampRowspansChanges(before);
        PadRowsKeepsFit(before);
        PadRowsProgress(before);
        PadRowsChanges(before);
        AfterPass(before, again);
      }
    }
  }

  /** The largest of the row widths, found by scanning them; 0 for a table without rows. */
  method Largest(widths: seq<nat>) returns (m: nat)
    ensures m == MaxOf(widths)
  {
    m := 0;
    var i := 0;
    while i < |widths|
      invariant 0 <= i <= |widths|
      invariant forall j :: 0 <= j < i ==> widths[j] <= m
      invariant i == 0 ==> m == 0
      invariant i > 0 ==> exists j :: 0 <= j < i && widths[j] == m
    {
      if widths[i] > m {
        m := widths[i];
      }
      i := i + 1;
    }
  }

  /** After a pass that reports no change, the table is its own repair. */
  lemma AfterPass(t: Table, again: bool)
    requires again == PassFixes(t)
    ensures !again ==> Pass(t) == t && Repaired(t) == t
  {
    PassFixesIffChanged(t);
    ClampRowspansChanges(t);
    if !again {
      RepairedKeepsValid(t);
    }
  }
}
