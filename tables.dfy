/** The table as the document model stores it: rows of literal cells, plus the two heading counters. */
module Tables {

  /** A `rowspan` or `colspan` value: a cell covers at least one grid row and one grid column. */
  type Span = n: int | 1 <= n witness 1

  /** A literal table cell. Its block content is opaque to the table engine; a string stands for it. */
  datatype Cell = Cell(rowspan: Span, colspan: Span, contents: string)

  /** The cell every structural fix creates: 1x1 with empty content. */
  const EmptyCell: Cell := Cell(1, 1, "")

  /**
   * A table: its literal rows, top to bottom, and the `headingRows` / `headingColumns`
   * attributes (0 when the attribute is absent).
   */
  datatype Table = Table(rows: seq<seq<Cell>>, headingRows: nat, headingColumns: nat)

  /** `k` fresh empty cells. */
  function Empties(k: nat): (s: seq<Cell>)
    ensures |s| == k
    ensures forall j :: 0 <= j < k ==> s[j] == EmptyCell
  {
    seq(k, _ => EmptyCell)
  }

  /** Every row `r` of `rows` with `ks[r]` empty cells appended. */
  function Extend(rows: seq<seq<Cell>>, ks: seq<nat>): (out: seq<seq<Cell>>)
    requires |ks| == |rows|
    ensures |out| == |rows|
    ensures forall r :: 0 <= r < |rows| ==> out[r] == rows[r] + Empties(ks[r])
  {
    seq(|rows|, r requires 0 <= r < |rows| => rows[r] + Empties(ks[r]))
  }

  /** Rows that are `rows` with `ks[r]` empty cells appended to row `r` are `Extend(rows, ks)`. */
  lemma ExtendedRows(rows: seq<seq<Cell>>, ks: seq<nat>, out: seq<seq<Cell>>)
    requires |ks| == |rows| == |out|
    requires forall r :: 0 <= r < |rows| ==> out[r] == rows[r] + Empties(ks[r])
    ensures out == Extend(rows, ks)
  {
  }

  /** A cell with the default spans, as the tests' string shorthand `'00'` builds it. */
  function Plain(contents: string): Cell
  {
    Cell(1, 1, contents)
  }
}
