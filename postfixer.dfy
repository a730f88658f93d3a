/**
 * The table post-fixer. After every change of the document it repairs each table in two steps:
 * first it trims every rowspan that reaches past the end of its section (the heading section for a
 * cell in a heading row, the whole table otherwise), then it appends empty 1x1 cells to every row
 * that spans fewer grid columns than the widest one. The document model runs its post-fixers again
 * for as long as one of them reports a change, so the outcome is the fixed point of the pass.
 */
module PostFixer {
  import opened Tables
  import opened Grid

  // ---------------------------------------------------------------------------------------------
  // Rowspans.

  /** The row (exclusive) below which a cell starting in row `r` has to end. */
  function RowLimit(t: Table, r: nat): nat
  {
    if r < t.headingRows then t.headingRows else |t.rows|
  }

  /** Every literal cell ends within its section. */
  predicate RowspansFit(t: Table)
  {
    forall r, k :: 0 <= r < |t.rows| && 0 <= k < |t.rows[r]| ==> r + t.rows[r][k].rowspan <= RowLimit(t, r)
  }

  /** Cell `c` of row `r`, trimmed so that it ends at `limit` when it spans past it. */
  function TrimCell(c: Cell, r: nat, limit: nat): (d: Cell)
    requires r < limit
    ensures d.colspan == c.colspan && d.contents == c.contents
    ensures r + d.rowspan <= limit
    ensures r + c.rowspan <= limit ==> d == c
    ensures r + c.rowspan > limit ==> r + d.rowspan == limit
  {
    if r + c.rowspan > limit then c.(rowspan := limit - r) else c
  }

  /** The first step of a pass: every rowspan that reaches past its section is cut at the section's end. */
  function ClampRowspans(t: Table): (t': Table)
    ensures |t'.rows| == |t.rows| && t'.headingRows == t.headingRows && t'.headingColumns == t.headingColumns
    ensures forall r :: 0 <= r < |t.rows| ==> |t'.rows[r]| == |t.rows[r]|
    ensures forall r, k :: 0 <= r < |t.rows| && 0 <= k < |t.rows[r]| ==>
      var c, c' := t.rows[r][k], t'.rows[r][k];
      && c'.colspan == c.colspan && c'.contents == c.contents
      && c'.rowspan <= c.rowspan
      && (r + c.rowspan <= RowLimit(t, r) ==> c' == c)
      && (r + c.rowspan > RowLimit(t, r) ==> r + c'.rowspan == RowLimit(t, r))
    ensures RowspansFit(t')
  {
    Table(seq(|t.rows|, r requires 0 <= r < |t.rows| => TrimmedRow(t.rows[r], r, RowLimit(t, r))),
          t.headingRows, t.headingColumns)
  }

  /** Row `r` with every cell trimmed to end by row `limit`. */
  function TrimmedRow(row: seq<Cell>, r: nat, limit: nat): (out: seq<Cell>)
    requires r < limit
    ensures |out| == |row|
    ensures forall k :: 0 <= k < |row| ==> out[k] == TrimCell(row[k], r, limit)
  {
    seq(|row|, k requires 0 <= k < |row| => TrimCell(row[k], r, limit))
  }

  /** Trimming changes a table exactly when one of its cells reaches past its section. */
  lemma ClampRowspansChanges(t: Table)
    ensures ClampRowspans(t) == t <==> RowspansFit(t)
  {
    var t' := ClampRowspans(t);
    if RowspansFit(t) {
      forall r | 0 <= r < |t.rows|
        ensures t'.rows[r] == t.rows[r]
      {
      }
      assert t'.rows == t.rows;
    }
  }

  // ---------------------------------------------------------------------------------------------
  // Row sizes.

  /** Every row spans as many grid columns as the widest one. */
  predicate EqualWidths(t: Table)
  {
    forall r :: 0 <= r < |t.rows| ==> RowWidths(t.rows)[r] == TableWidth(t.rows)
  }

  /** The number of empty cells each row needs to reach the width of the widest row. */
  function Shortfalls(rows: seq<seq<Cell>>): (ks: seq<nat>)
    ensures |ks| == |rows|
    ensures forall r :: 0 <= r < |rows| ==> RowWidths(rows)[r] + ks[r] == TableWidth(rows)
  {
    var w := RowWidths(rows);
    var m := TableWidth(rows);
    seq(|w|, r requires 0 <= r < |w| => (m - w[r]) as nat)
  }

  /** The second step of a pass: every row gets as many empty cells appended as it falls short. */
  function PadRows(t: Table): Table
  {
    Table(Extend(t.rows, Shortfalls(t.rows)), t.headingRows, t.headingColumns)
  }

  /** The sum of the rows' overhangs: what padding can still uncover. */
  function Measure(t: Table): nat
  {
    Sum(Overhangs(t.rows))
  }

  /**
   * `t'` is `t` with empty cells appended at the ends of its rows, every existing cell keeping its
   * grid slot; the heading counters are the same.
   */
  predicate PaddedFrom(t: Table, t': Table)
  {
    && |t'.rows| == |t.rows| && t'.headingRows == t.headingRows && t'.headingColumns == t.headingColumns
    && forall r :: 0 <= r < |t.rows| ==>
         && |t.rows[r]| <= |t'.rows[r]|
         && t'.rows[r][..|t.rows[r]|] == t.rows[r]
         && (forall k :: |t.rows[r]| <= k < |t'.rows[r]| ==> t'.rows[r][k] == EmptyCell)
         && Layouts(t'.rows)[r].slots[..|t.rows[r]|] == Layouts(t.rows)[r].slots
  }

  /** Padding only appends empty cells, and brings every row to at least the old grid width. */
  lemma PadRowsShape(t: Table)
    ensures PaddedFrom(t, PadRows(t))
    ensures forall r :: 0 <= r < |t.rows| ==> RowWidths(PadRows(t).rows)[r] >= TableWidth(t.rows)
  {
    PadRowsAppends(t);
    PadRowsWidens(t);
  }

  lemma PadRowsAppends(t: Table)
    ensures PaddedFrom(t, PadRows(t))
  {
    var ks := Shortfalls(t.rows);
    var t' := PadRows(t);
    ExtendedWidths(t.rows, ks);
    forall r | 0 <= r < |t.rows|
      ensures |t.rows[r]| <= |t'.rows[r]| && t'.rows[r][..|t.rows[r]|] == t.rows[r]
      ensures forall k :: |t.rows[r]| <= k < |t'.rows[r]| ==> t'.rows[r][k] == EmptyCell
      ensures Layouts(t'.rows)[r].slots[..|t.rows[r]|] == Layouts(t.rows)[r].slots
    {
      AppendedRow(t.rows[r], ks[r], t'.rows[r]);
    }
  }

  /** A row with empty cells appended starts with the row and continues with empty cells. */
  lemma AppendedRow(row: seq<Cell>, k: nat, out: seq<Cell>)
    requires out == row + Empties(k)
    ensures |row| <= |out| && out[..|row|] == row
    ensures forall j :: |row| <= j < |out| ==> out[j] == EmptyCell
  {
    assert forall j :: |row| <= j < |out| ==> out[j] == Empties(k)[j - |row|];
  }

  lemma PadRowsWidens(t: Table)
    ensures forall r :: 0 <= r < |t.rows| ==> RowWidths(PadRows(t).rows)[r] >= TableWidth(t.rows)
  {
    ExtendedWidths(t.rows, Shortfalls(t.rows));
  }

  /** A table's rows are equally wide exactly when no row falls short. */
  lemma EqualWidthsNoShortfall(t: Table)
    ensures EqualWidths(t) <==> forall r :: 0 <= r < |t.rows| ==> Shortfalls(t.rows)[r] == 0
  {
    var ks := Shortfalls(t.rows);
    forall r | 0 <= r < |t.rows|
      ensures RowWidths(t.rows)[r] == TableWidth(t.rows) <==> ks[r] == 0
    {
    }
  }

  /** Padding changes a table exactly when its rows differ in width. */
  lemma PadRowsChanges(t: Table)
    ensures PadRows(t) == t <==> EqualWidths(t)
  {
    var ks := Shortfalls(t.rows);
    var t' := PadRows(t);
    if EqualWidths(t) {
      forall r | 0 <= r < |t.rows|
        ensures t'.rows[r] == t.rows[r]
      {
        assert ks[r] == 0;
        assert t'.rows[r] == t.rows[r] + [];
      }
      assert t'.rows == t.rows;
    } else {
      var r :| 0 <= r < |t.rows| && RowWidths(t.rows)[r] != TableWidth(t.rows);
      assert |t'.rows[r]| == |t.rows[r]| + ks[r];
    }
  }

  /** Sums of pointwise smaller sequences. */
  lemma {:induction false} SumBelow(a: seq<nat>, b: seq<nat>)
    requires |a| == |b|
    requires forall i :: 0 <= i < |a| ==> a[i] <= b[i]
    ensures Sum(a) <= Sum(b)
    ensures Sum(a) == Sum(b) ==> forall i :: 0 <= i < |a| ==> a[i] == b[i]
    decreases |a|
  {
    if a != [] {
      SumBelow(a[1..], b[1..]);
      if Sum(a) == Sum(b) {
        forall i | 0 <= i < |a|
          ensures a[i] == b[i]
        {
          if i > 0 {
            assert a[1..][i - 1] == a[i] && b[1..][i - 1] == b[i];
          }
        }
      }
    }
  }

  /**
   * Padding never increases the total overhang, and when it does not decrease it, the padded rows
   * all have the same width: every pass either makes progress or finishes the job.
   */
  lemma PadRowsProgress(t: Table)
    ensures Measure(PadRows(t)) <= Measure(t)
    ensures Measure(PadRows(t)) == Measure(t) ==> EqualWidths(PadRows(t))
  {
    var ks := Shortfalls(t.rows);
    var t' := PadRows(t);
    var m := TableWidth(t.rows);
    ExtendedWidths(t.rows, ks);
    var o, o' := Overhangs(t.rows), Overhangs(t'.rows);
    SumBelow(o', o);
    if Measure(t') == Measure(t) {
      var w' := RowWidths(t'.rows);
      assert forall r :: 0 <= r < |t.rows| ==> w'[r] == m;
      if |t.rows| > 0 {
        assert TableWidth(t'.rows) == m by {
          var i :| 0 <= i < |w'| && w'[i] == TableWidth(t'.rows);
        }
      }
    }
  }

  // ---------------------------------------------------------------------------------------------
  // The fixed point.

  /** Padding, repeated until every row has the same width. */
  function Settle(t: Table): (t': Table)
    ensures EqualWidths(t')
    ensures PaddedFrom(t, t')
    decreases Measure(t), if EqualWidths(t) then 0 else 1
  {
    if EqualWidths(t) then
      PaddedFromItself(t);
      t
    else
      PadRowsProgress(t);
      PadRowsShape(t);
      var t' := Settle(PadRows(t));
      PaddedFromTransitive(t, PadRows(t), t');
      t'
  }

  /** Appending no cells is a padding. */
  lemma PaddedFromItself(t: Table)
    ensures PaddedFrom(t, t)
  {
    forall r | 0 <= r < |t.rows|
      ensures t.rows[r][..|t.rows[r]|] == t.rows[r]
      ensures Layouts(t.rows)[r].slots[..|t.rows[r]|] == Layouts(t.rows)[r].slots
    {
    }
  }

  /** Two rounds of appending empty cells compose into one. */
  lemma PaddedFromTransitive(t: Table, u: Table, v: Table)
    requires PaddedFrom(t, u) && PaddedFrom(u, v)
    ensures PaddedFrom(t, v)
  {
    forall r | 0 <= r < |t.rows|
      ensures |t.rows[r]| <= |v.rows[r]|
      ensures v.rows[r][..|t.rows[r]|] == t.rows[r]
      ensures forall k :: |t.rows[r]| <= k < |v.rows[r]| ==> v.rows[r][k] == EmptyCell
      ensures Layouts(v.rows)[r].slots[..|t.rows[r]|] == Layouts(t.rows)[r].slots
    {
      var n, m := |t.rows[r]|, |u.rows[r]|;
      assert v.rows[r][..n] == v.rows[r][..m][..n];
      assert Layouts(v.rows)[r].slots[..n] == Layouts(v.rows)[r].slots[..m][..n];
      forall k | n <= k < |v.rows[r]|
        ensures v.rows[r][k] == EmptyCell
      {
        if k < m {
          assert v.rows[r][k] == v.rows[r][..m][k];
        }
      }
    }
  }

  /** What the document holds once the post-fixer has run to its fixed point. */
  function Repaired(t: Table): Table
  {
    Settle(ClampRowspans(t))
  }

  /**
   * What repair may change: it keeps the heading counters, the number of rows and every existing
   * cell's place, contents and colspan; it only shortens rowspans that reach past their section and
   * appends empty cells at row ends.
   */
  lemma RepairedChanges(t: Table)
    ensures var t' := Repaired(t);
      && |t'.rows| == |t.rows| && t'.headingRows == t.headingRows && t'.headingColumns == t.headingColumns
      && forall r :: 0 <= r < |t.rows| ==> |t.rows[r]| <= |t'.rows[r]|
    ensures forall r, k :: 0 <= r < |t.rows| && 0 <= k < |t.rows[r]| ==>
      var c, c' := t.rows[r][k], Repaired(t).rows[r][k];
      && c'.colspan == c.colspan && c'.contents == c.contents
      && c'.rowspan <= c.rowspan
      && (r + c.rowspan <= RowLimit(t, r) ==> c' == c)
    ensures forall r, k :: 0 <= r < |t.rows| && |t.rows[r]| <= k < |Repaired(t).rows[r]| ==>
      Repaired(t).rows[r][k] == EmptyCell
  {
    var c, t' := ClampRowspans(t), Repaired(t);
    assert PaddedFrom(c, t');
    forall r, k | 0 <= r < |t.rows| && 0 <= k < |t.rows[r]|
      ensures t'.rows[r][k] == c.rows[r][k]
    {
      assert t'.rows[r][..|c.rows[r]|][k] == c.rows[r][k];
    }
  }

  /** Padding appends single-row cells only, so it keeps every rowspan within its section. */
  lemma PadRowsKeepsFit(t: Table)
    requires RowspansFit(t)
    ensures RowspansFit(PadRows(t))
  {
    var ks := Shortfalls(t.rows);
    var t' := PadRows(t);
    forall r, k | 0 <= r < |t'.rows| && 0 <= k < |t'.rows[r]|
      ensures r + t'.rows[r][k].rowspan <= RowLimit(t', r)
    {
      assert t'.rows[r] == t.rows[r] + Empties(ks[r]);
      assert RowLimit(t', r) == RowLimit(t, r);
      if k < |t.rows[r]| {
        assert t'.rows[r][k] == t.rows[r][k];
      } else {
        assert t'.rows[r][k] == Empties(ks[r])[k - |t.rows[r]|];
      }
    }
  }

  /** The same for any number of rounds of padding. */
  lemma {:induction false} SettleKeepsFit(t: Table)
    requires RowspansFit(t)
    ensures RowspansFit(Settle(t))
    decreases Measure(t), if EqualWidths(t) then 0 else 1
  {
    if !EqualWidths(t) {
      PadRowsProgress(t);
      PadRowsKeepsFit(t);
      SettleKeepsFit(PadRows(t));
    }
  }

  /** A repaired table has its rowspans within their sections and rows of equal width. */
  lemma RepairedIsValid(t: Table)
    ensures RowspansFit(Repaired(t)) && EqualWidths(Repaired(t))
  {
    SettleKeepsFit(ClampRowspans(t));
  }

  /** A table that is already valid is left alone. */
  lemma RepairedKeepsValid(t: Table)
    requires RowspansFit(t) && EqualWidths(t)
    ensures Repaired(t) == t
  {
    ClampRowspansChanges(t);
  }

  /** When one round of padding evens out the rows of a table whose rowspans fit, that round is the repair. */
  lemma RepairedByOnePad(t: Table)
    requires RowspansFit(t) && EqualWidths(PadRows(t))
    ensures Repaired(t) == PadRows(t)
  {
    ClampRowspansChanges(t);
    if EqualWidths(t) {
      PadRowsChanges(t);
    } else {
      SettleUnfolds(t);
    }
  }

  /** One round of `Settle` on a table whose rows differ in width. */
  lemma SettleUnfolds(t: Table)
    requires !EqualWidths(t)
    ensures Settle(t) == Settle(PadRows(t))
  {
  }

  /** A sum of naturals is 0 only when every term is. */
  lemma {:induction false} SumZero(s: seq<nat>)
    requires Sum(s) == 0
    ensures forall i :: 0 <= i < |s| ==> s[i] == 0
  {
    if s != [] {
      SumZero(s[1..]);
      assert forall i :: 1 <= i < |s| ==> s[i] == s[1..][i - 1];
    }
  }

  /**
   * When no row has columns carried into it from above beyond its own end, one padding pass
   * makes every row exactly as wide as the widest one, so it completes the repair.
   */
  lemma NoOverhangRepair(t: Table)
    requires RowspansFit(t) && Measure(t) == 0
    ensures EqualWidths(PadRows(t))
    ensures Repaired(t) == PadRows(t)
    ensures forall r :: 0 <= r < |t.rows| ==> RowWidths(PadRows(t).rows)[r] == TableWidth(t.rows)
  {
    var ks := Shortfalls(t.rows);
    var out := PadRows(t).rows;
    SumZero(Overhangs(t.rows));
    ExtendedWidths(t.rows, ks);
    assert forall r :: 0 <= r < |t.rows| ==> RowWidths(out)[r] == TableWidth(t.rows);
    if |t.rows| > 0 {
      assert TableWidth(out) == TableWidth(t.rows);
    }
    RepairedByOnePad(t);
  }

  /** Without rowspans a single round of padding evens out all rows, so it is the whole repair. */
  lemma SingleRowRepair(t: Table)
    requires SingleRowCells(t.rows)
    ensures Repaired(t) == PadRows(t)
    ensures forall r :: 0 <= r < |t.rows| ==> ColspanSum(PadRows(t).rows[r]) == TableWidth(t.rows)
  {
    SingleRowPadding(t);
    assert RowspansFit(t);
    RepairedByOnePad(t);
  }

  /** Padding a table without rowspans brings each row's colspans up to the grid width. */
  lemma SingleRowPadding(t: Table)
    requires SingleRowCells(t.rows)
    ensures SingleRowCells(PadRows(t).rows)
    ensures forall r :: 0 <= r < |t.rows| ==> ColspanSum(PadRows(t).rows[r]) == TableWidth(t.rows)
    ensures EqualWidths(PadRows(t))
  {
    PadRowsKeepsSingleRow(t);
    PaddedColspans(t);
    PaddedEqualWidths(t);
  }

  /** Without rowspans, padding leaves every row as wide as the grid. */
  lemma PaddedEqualWidths(t: Table)
    requires SingleRowCells(t.rows)
    ensures EqualWidths(PadRows(t))
  {
    var t' := PadRows(t);
    var w := RowWidths(t'.rows);
    PadRowsKeepsSingleRow(t);
    PaddedColspans(t);
    SingleRowLayouts(t'.rows);
    assert forall r :: 0 <= r < |w| ==> w[r] == TableWidth(t.rows);
    ConstantMax(w, TableWidth(t.rows));
  }

  /** The largest of equal numbers is that number. */
  lemma ConstantMax(s: seq<nat>, v: nat)
    requires forall i :: 0 <= i < |s| ==> s[i] == v
    ensures |s| > 0 ==> MaxOf(s) == v
  {
    if |s| > 0 {
      var i :| 0 <= i < |s| && s[i] == MaxOf(s);
    }
  }

  /** Padding adds 1x1 cells only. */
  lemma PadRowsKeepsSingleRow(t: Table)
    requires SingleRowCells(t.rows)
    ensures SingleRowCells(PadRows(t).rows)
  {
    var ks := Shortfalls(t.rows);
    var t' := PadRows(t);
    forall r, k | 0 <= r < |t'.rows| && 0 <= k < |t'.rows[r]|
      ensures t'.rows[r][k].rowspan == 1
    {
      assert t'.rows[r] == t.rows[r] + Empties(ks[r]);
      if k >= |t.rows[r]| {
        assert t'.rows[r][k] == Empties(ks[r])[k - |t.rows[r]|];
      }
    }
  }

  /** Without rowspans, the padded rows' colspans add up to the grid width. */
  lemma PaddedColspans(t: Table)
    requires SingleRowCells(t.rows)
    ensures forall r :: 0 <= r < |t.rows| ==> ColspanSum(PadRows(t).rows[r]) == TableWidth(t.rows)
  {
    var ks := Shortfalls(t.rows);
    SingleRowLayouts(t.rows);
    forall r | 0 <= r < |t.rows|
      ensures ColspanSum(PadRows(t).rows[r]) == TableWidth(t.rows)
    {
      ColspanSumAppend(t.rows[r], Empties(ks[r]));
      ColspanSumEmpties(ks[r]);
    }
  }

  /** Repairing is idempotent. */
  lemma RepairedIdempotent(t: Table)
    ensures Repaired(Repaired(t)) == Repaired(t)
  {
    RepairedIsValid(t);
    RepairedKeepsValid(Repaired(t));
  }

  // ---------------------------------------------------------------------------------------------
  // One pass, as the post-fixer callback runs it.

  /** One run of the post-fixer callback: trim, then pad. */
  function Pass(t: Table): Table
  {
    PadRows(ClampRowspans(t))
  }

  /** What the callback reports back: whether either step changed something. */
  predicate PassFixes(t: Table)
  {
    !RowspansFit(t) || !EqualWidths(ClampRowspans(t))
  }

  /** The callback reports a change exactly when its pass changed the table. */
  lemma PassFixesIffChanged(t: Table)
    ensures PassFixes(t) <==> Pass(t) != t
  {
    var c := ClampRowspans(t);
    ClampRowspansChanges(t);
    PadRowsChanges(c);
    PadRowsShape(c);
  }

  /** Running passes on a result the callback keeps changing leads to the same fixed point. */
  lemma PassTowardsRepaired(t: Table)
    ensures Repaired(Pass(t)) == Repaired(t)
  {
    var c := ClampRowspans(t);
    PadRowsKeepsFit(c);
    ClampRowspansChanges(PadRows(c));
    PadRowsChanges(c);
  }
}
