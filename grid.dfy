/**
 * Grid resolution: every literal cell gets an absolute (row, column) origin. The rules are those of
 * the table-forming algorithm of the HTML Living Standard (section 4.9.12, "Processing model"):
 * walking a row from left to right, each literal cell takes the first column that is not already
 * taken, either by a cell of an earlier row whose rowspan reaches down into this row or by an
 * earlier cell of the same row; the cell then takes `colspan` columns for `rowspan` rows.
 * A row's width is the number of grid slots the walk visits in it: the cursor after its last
 * literal cell, once the taken columns right behind that cell have been skipped.
 */
module Grid {
  import opened Tables

  /** A resolved cell: the grid slot of its top-left corner and its extent. */
  datatype Slot = Slot(row: nat, column: nat, rowspan: nat, colspan: nat)

  /**
   * The result of walking (part of) one row: the slots of the literal cells placed, the columns
   * of this row taken so far, and the cursor at which the next literal cell is looked for.
   */
  datatype Placement = Placement(slots: seq<Slot>, taken: set<nat>, next: nat)

  /** The members of `s` at or right of column `c`. */
  function AtOrAfter(s: set<nat>, c: nat): set<nat>
  {
    set x | x in s && x >= c
  }

  /** The columns `c .. c + n - 1`. */
  function Columns(c: nat, n: nat): set<nat>
    decreases n
  {
    if n == 0 then {} else {c} + Columns(c + 1, n - 1)
  }

  /** `Columns(c, n)` holds exactly the columns from `c` up to, but not including, `c + n`. */
  lemma {:induction false} ColumnsMembers(c: nat, n: nat)
    ensures forall x :: x in Columns(c, n) <==> c <= x < c + n
    decreases n
  {
    if n > 0 {
      ColumnsMembers(c + 1, n - 1);
    }
  }

  /** The first column at or right of `c` that is not taken. */
  function Skip(taken: set<nat>, c: nat): (r: nat)
    ensures c <= r && r !in taken
    ensures forall x :: c <= x < r ==> x in taken
    decreases AtOrAfter(taken, c)
  {
    if c in taken then
      assert c !in AtOrAfter(taken, c + 1);
      Skip(taken, c + 1)
    else
      c
  }

  /**
   * Places the literal cells `cells` of grid row `row`, looking for the first one from column
   * `next` on, with `taken` the columns of this row already taken.
   */
  function Place(row: nat, cells: seq<Cell>, taken: set<nat>, next: nat): (p: Placement)
    ensures |p.slots| == |cells|
    decreases |cells|
  {
    if cells == [] then
      Placement([], taken, next)
    else
      var c := Skip(taken, next);
      var rest := Place(row, cells[1..], taken + Columns(c, cells[0].colspan), c + 1);
      Placement([Slot(row, c, cells[0].rowspan, cells[0].colspan)] + rest.slots, rest.taken, rest.next)
  }

  /** Slot `k` of a walked row belongs to that row and has the extent of literal cell `k`. */
  lemma {:induction false} PlaceSlots(row: nat, cells: seq<Cell>, taken: set<nat>, next: nat)
    ensures forall k :: 0 <= k < |cells| ==>
              var s := Place(row, cells, taken, next).slots[k];
              s.row == row && s.rowspan == cells[k].rowspan && s.colspan == cells[k].colspan
    decreases |cells|
  {
    if cells != [] {
      var c := Skip(taken, next);
      var p := Place(row, cells, taken, next);
      var rest := Place(row, cells[1..], taken + Columns(c, cells[0].colspan), c + 1);
      PlaceSlots(row, cells[1..], taken + Columns(c, cells[0].colspan), c + 1);
      assert p.slots == [Slot(row, c, cells[0].rowspan, cells[0].colspan)] + rest.slots;
      forall k | 1 <= k < |cells|
        ensures p.slots[k] == rest.slots[k - 1] && cells[k] == cells[1..][k - 1]
      {
      }
    }
  }

  /** The width of a walked row: the cursor once the taken columns right of it are skipped. */
  function Width(p: Placement): nat
  {
    Skip(p.taken, p.next)
  }

  /** The columns the slots themselves cover in their own row. */
  function OwnColumns(slots: seq<Slot>): set<nat>
  {
    if slots == [] then {} else Columns(slots[0].column, slots[0].colspan) + OwnColumns(slots[1..])
  }

  /** Whether slot `s` reaches down into (later) row `r` at column `x`. */
  predicate Covers(s: Slot, r: nat, x: nat)
  {
    s.row < r < s.row + s.rowspan && s.column <= x < s.column + s.colspan
  }

  /** The columns of row `r` that the slots, all from earlier rows, keep taken there. */
  function CarriedByRow(slots: seq<Slot>, r: nat): set<nat>
  {
    if slots == [] then {}
    else
      (if slots[0].row < r < slots[0].row + slots[0].rowspan
       then Columns(slots[0].column, slots[0].colspan) else {})
      + CarriedByRow(slots[1..], r)
  }

  /** The columns of row `r` taken by the rowspans of the rows walked in `ls`. */
  function CarriedInto(ls: seq<Placement>, r: nat): set<nat>
  {
    if ls == [] then {} else CarriedInto(ls[..|ls| - 1], r) + CarriedByRow(ls[|ls| - 1].slots, r)
  }

  /** The walk of every row of the table, top to bottom. */
  function Layouts(rows: seq<seq<Cell>>): (ls: seq<Placement>)
    ensures |ls| == |rows|
    ensures forall r :: 0 <= r < |rows| ==> |ls[r].slots| == |rows[r]|
  {
    if rows == [] then []
    else
      var n := |rows| - 1;
      var prev := Layouts(rows[..n]);
      prev + [Place(n, rows[n], CarriedInto(prev, n), 0)]
  }

  /** The width of every row. */
  function RowWidths(rows: seq<seq<Cell>>): (w: seq<nat>)
    ensures |w| == |rows|
  {
    var ls := Layouts(rows);
    seq(|ls|, r requires 0 <= r < |ls| => Width(ls[r]))
  }

  /** The largest element, 0 for an empty sequence. */
  function MaxOf(s: seq<nat>): (m: nat)
    ensures forall i :: 0 <= i < |s| ==> s[i] <= m
    ensures |s| > 0 ==> exists i :: 0 <= i < |s| && s[i] == m
    ensures |s| == 0 ==> m == 0
  {
    if s == [] then 0
    else
      var m := MaxOf(s[1..]);
      assert forall i :: 1 <= i < |s| ==> s[i] == s[1..][i - 1];
      if s[0] >= m then s[0] else m
  }

  /** The grid width of a table: the width of its widest row. */
  function TableWidth(rows: seq<seq<Cell>>): nat
  {
    MaxOf(RowWidths(rows))
  }

  /** The resolved column of literal cell `k` of row `r`. */
  function ColumnOf(rows: seq<seq<Cell>>, r: nat, k: nat): nat
    requires r < |rows| && k < |rows[r]|
  {
    Layouts(rows)[r].slots[k].column
  }

  // ---------------------------------------------------------------------------------------------
  // Facts about one row.

  /** The sum of the colspans of `cells`. */
  function ColspanSum(cells: seq<Cell>): nat
  {
    if cells == [] then 0 else cells[0].colspan + ColspanSum(cells[1..])
  }

  /** A row of cells one column wide spans as many columns as it has cells. */
  lemma {:induction false} PlainRowSum(row: seq<Cell>)
    requires forall k :: 0 <= k < |row| ==> row[k].colspan == 1
    ensures ColspanSum(row) == |row|
    decreases |row|
  {
    if row != [] {
      assert forall k :: 0 <= k < |row[1..]| ==> row[1..][k] == row[k + 1];
      PlainRowSum(row[1..]);
    }
  }

  /** Colspans add up over concatenation. */
  lemma {:induction false} ColspanSumAppend(a: seq<Cell>, b: seq<Cell>)
    ensures ColspanSum(a + b) == ColspanSum(a) + ColspanSum(b)
    decreases |a|
  {
    if a == [] {
      assert a + b == b;
    } else {
      assert (a + b)[1..] == a[1..] + b;
      ColspanSumAppend(a[1..], b);
    }
  }

  /** `k` empty cells span `k` columns. */
  lemma {:induction false} ColspanSumEmpties(k: nat)
    ensures ColspanSum(Empties(k)) == k
    decreases k
  {
    if k > 0 {
      assert Empties(k)[1..] == Empties(k - 1);
      ColspanSumEmpties(k - 1);
    }
  }

  /** The columns taken at the end of a walk are those taken at its start plus the cells' own. */
  lemma {:induction false} PlaceTaken(row: nat, cells: seq<Cell>, taken: set<nat>, next: nat)
    ensures Place(row, cells, taken, next).taken == taken + OwnColumns(Place(row, cells, taken, next).slots)
    decreases |cells|
  {
    if cells != [] {
      var c := Skip(taken, next);
      var p := Place(row, cells, taken, next);
      PlaceTaken(row, cells[1..], taken + Columns(c, cells[0].colspan), c + 1);
      assert p.slots[1..] == Place(row, cells[1..], taken + Columns(c, cells[0].colspan), c + 1).slots;
    }
  }

  /** Walking `a + b` is walking `a`, then walking `b` from where `a` stopped. */
  lemma {:induction false} PlaceSplit(row: nat, a: seq<Cell>, b: seq<Cell>, taken: set<nat>, next: nat)
    ensures var pa := Place(row, a, taken, next);
            var pb := Place(row, b, pa.taken, pa.next);
            Place(row, a + b, taken, next) == Placement(pa.slots + pb.slots, pb.taken, pb.next)
    decreases |a|
  {
    if a == [] {
      assert a + b == b;
    } else {
      var c := Skip(taken, next);
      var t1 := taken + Columns(c, a[0].colspan);
      var head := Slot(row, c, a[0].rowspan, a[0].colspan);
      assert (a + b)[0] == a[0];
      assert (a + b)[1..] == a[1..] + b;
      PlaceSplit(row, a[1..], b, t1, c + 1);
      var pa1 := Place(row, a[1..], t1, c + 1);
      var pa := Place(row, a, taken, next);
      assert pa.slots == [head] + pa1.slots && pa.taken == pa1.taken && pa.next == pa1.next;
      var pb := Place(row, b, pa1.taken, pa1.next);
      var rest := Place(row, a[1..] + b, t1, c + 1);
      assert rest.slots == pa1.slots + pb.slots && rest.taken == pb.taken && rest.next == pb.next;
      var whole := Place(row, a + b, taken, next);
      assert whole.slots == [head] + rest.slots && whole.taken == rest.taken && whole.next == rest.next;
      assert [head] + (pa1.slots + pb.slots) == ([head] + pa1.slots) + pb.slots;
    }
  }

  /** A walk never ends left of the first free column it starts from. */
  lemma {:induction false} WidthAtLeastStart(row: nat, cells: seq<Cell>, taken: set<nat>, next: nat)
    ensures Width(Place(row, cells, taken, next)) >= Skip(taken, next)
    decreases |cells|
  {
    if cells != [] {
      var c := Skip(taken, next);
      WidthAtLeastStart(row, cells[1..], taken + Columns(c, cells[0].colspan), c + 1);
    }
  }

  /** Every column a walked cell covers in its own row lies left of the row's width. */
  lemma {:induction false} OwnColumnsBelowWidth(row: nat, cells: seq<Cell>, taken: set<nat>, next: nat)
    ensures var p := Place(row, cells, taken, next);
            forall x :: x in OwnColumns(p.slots) ==> x < Width(p)
    decreases |cells|
  {
    if cells != [] {
      var c := Skip(taken, next);
      var t1 := taken + Columns(c, cells[0].colspan);
      var p := Place(row, cells, taken, next);
      var rest := Place(row, cells[1..], t1, c + 1);
      OwnColumnsBelowWidth(row, cells[1..], t1, c + 1);
      WidthAtLeastStart(row, cells[1..], t1, c + 1);
      assert p.slots[1..] == rest.slots;
      ColumnsMembers(c, cells[0].colspan);
      SkipPast(t1, c + 1, c + cells[0].colspan);
    }
  }

  /** `Skip` stops at the first free column: one that is free with only taken columns before it. */
  lemma {:induction false} SkipAt(taken: set<nat>, c: nat, e: nat)
    requires c <= e && e !in taken
    requires forall x :: c <= x < e ==> x in taken
    ensures Skip(taken, c) == e
    decreases e - c
  {
    if c < e {
      SkipAt(taken, c + 1, e);
    }
  }

  /** `Skip` passes over a run of taken columns. */
  lemma {:induction false} SkipPast(taken: set<nat>, c: nat, e: nat)
    requires forall x :: c <= x < e ==> x in taken
    ensures Skip(taken, c) >= e
    decreases e - c
  {
    if c < e {
      SkipPast(taken, c + 1, e);
    }
  }

  /** Skipping from `c` to `Skip(taken, c)` passes exactly the taken columns in between. */
  lemma {:induction false} SkipCount(taken: set<nat>, c: nat)
    ensures |AtOrAfter(taken, c)| == |AtOrAfter(taken, Skip(taken, c))| + (Skip(taken, c) - c)
    decreases AtOrAfter(taken, c)
  {
    if c in taken {
      assert c !in AtOrAfter(taken, c + 1);
      assert AtOrAfter(taken, c) == {c} + AtOrAfter(taken, c + 1);
      SkipCount(taken, c + 1);
    }
  }

  /**
   * Appending `k` empty 1x1 cells to a walked row: each new cell takes a distinct free column, so
   * the width grows by at least `k`; whatever it grows by beyond `k` is the number of taken
   * columns right of the old width that the new cells jumped over.
   */
  lemma {:induction false} EmptiesPlacement(row: nat, k: nat, taken: set<nat>, next: nat)
    ensures var p := Place(row, Empties(k), taken, next);
            && Width(p) >= Skip(taken, next) + k
            && Width(p) + |AtOrAfter(p.taken, Width(p))|
               == Skip(taken, next) + k + |AtOrAfter(taken, Skip(taken, next))|
    decreases k
  {
    if k > 0 {
      var c := Skip(taken, next);
      var t1 := taken + Columns(c, 1);
      assert Empties(k)[0] == EmptyCell;
      assert Empties(k)[1..] == Empties(k - 1);
      EmptiesPlacement(row, k - 1, t1, c + 1);
      SkipCount(t1, c + 1);
      assert AtOrAfter(t1, c + 1) == AtOrAfter(taken, c + 1);
      assert AtOrAfter(taken, c) == AtOrAfter(taken, c + 1);
    }
  }

  /** When the taken columns from `next` on are exactly `next .. base - 1`, the first free one is `base`. */
  lemma IntervalSkip(taken: set<nat>, next: nat, base: nat)
    requires next <= base
    requires AtOrAfter(taken, next) == Columns(next, base - next)
    ensures Skip(taken, next) == base
  {
    ColumnsMembers(next, base - next);
    forall x: nat | next <= x < base
      ensures x in taken
    {
      assert x in AtOrAfter(taken, next);
    }
    assert base !in AtOrAfter(taken, next);
    SkipAt(taken, next, base);
  }

  /** Taking `cs` columns at `base` leaves the taken columns from `base + 1` on an interval again. */
  lemma IntervalStep(taken: set<nat>, next: nat, base: nat, cs: nat)
    requires next <= base && cs >= 1
    requires AtOrAfter(taken, next) == Columns(next, base - next)
    ensures AtOrAfter(taken + Columns(base, cs), base + 1) == Columns(base + 1, base + cs - (base + 1))
  {
    var t1 := taken + Columns(base, cs);
    ColumnsMembers(next, base - next);
    ColumnsMembers(base, cs);
    ColumnsMembers(base + 1, cs - 1);
    forall x: nat {:trigger x in t1} | x in AtOrAfter(t1, base + 1) ensures x in Columns(base + 1, cs - 1) {
      assert x !in AtOrAfter(taken, next);
      assert x in Columns(base, cs);
    }
  }

  /**
   * When the taken columns at or right of the cursor `next` are exactly `next .. base - 1`, the
   * cells are laid side by side from `base`: each one starts where the colspans of the cells
   * before it end.
   */
  lemma {:induction false} PlaceFromInterval(row: nat, cells: seq<Cell>, taken: set<nat>, next: nat, base: nat)
    requires next <= base
    requires AtOrAfter(taken, next) == Columns(next, base - next)
    ensures var p := Place(row, cells, taken, next);
            && (forall k :: 0 <= k < |cells| ==> p.slots[k].column == base + ColspanSum(cells[..k]))
            && Width(p) == base + ColspanSum(cells)
    decreases |cells|
  {
    IntervalSkip(taken, next, base);
    if cells != [] {
      var cs: nat := cells[0].colspan;
      var t1 := taken + Columns(base, cs);
      IntervalStep(taken, next, base, cs);
      PlaceFromInterval(row, cells[1..], t1, base + 1, base + cs);
      var p := Place(row, cells, taken, next);
      var rest := Place(row, cells[1..], t1, base + 1);
      forall k | 0 <= k < |cells|
        ensures p.slots[k].column == base + ColspanSum(cells[..k])
      {
        if k > 0 {
          assert cells[..k][1..] == cells[1..][..k - 1];
          assert p.slots[k] == rest.slots[k - 1];
        }
      }
    }
  }

  /**
   * The placement rule as the HTML processing model states it: cell `k` starts at the first column
   * at or right of the cursor (the start cursor for the first cell, one past the previous cell's
   * column otherwise) that is neither taken on entry nor covered by an earlier cell of the row.
   */
  lemma {:induction false} PlaceFirstFree(row: nat, cells: seq<Cell>, taken: set<nat>, next: nat, k: nat)
    requires k < |cells|
    ensures var p := Place(row, cells, taken, next);
            var lo := if k == 0 then next else p.slots[k - 1].column + 1;
            var used := taken + OwnColumns(p.slots[..k]);
            && lo <= p.slots[k].column
            && p.slots[k].column !in used
            && forall x :: lo <= x < p.slots[k].column ==> x in used
    decreases |cells|
  {
    var c := Skip(taken, next);
    var p := Place(row, cells, taken, next);
    assert p.slots[..1] == [p.slots[0]];
    if k > 0 {
      var t1 := taken + Columns(c, cells[0].colspan);
      var rest := Place(row, cells[1..], t1, c + 1);
      PlaceFirstFree(row, cells[1..], t1, c + 1, k - 1);
      assert p.slots[1..] == rest.slots;
      assert p.slots[..k][1..] == rest.slots[..k - 1];
      assert taken + OwnColumns(p.slots[..k]) == t1 + OwnColumns(rest.slots[..k - 1]);
    }
  }

  /** `Columns(c, n)` holds `n` columns. */
  lemma {:induction false} ColumnsCount(c: nat, n: nat)
    ensures |Columns(c, n)| == n
    decreases n
  {
    if n > 0 {
      ColumnsMembers(c + 1, n - 1);
      ColumnsCount(c + 1, n - 1);
    }
  }

  /** A walk that starts with every column left of its cursor taken ends with every column left of its width taken. */
  lemma {:induction false} TakenBelowWidth(row: nat, cells: seq<Cell>, taken: set<nat>, next: nat)
    requires forall x: nat :: x < next ==> x in taken
    ensures forall x: nat :: x < Width(Place(row, cells, taken, next)) ==> x in Place(row, cells, taken, next).taken
    decreases |cells|
  {
    var p := Place(row, cells, taken, next);
    if cells == [] {
      forall x: nat | x < Width(p)
        ensures x in p.taken
      {
        if x >= next {
          assert next <= x < Skip(taken, next);
        }
      }
    } else {
      var c := Skip(taken, next);
      var t1 := taken + Columns(c, cells[0].colspan);
      ColumnsMembers(c, cells[0].colspan);
      forall x: nat | x < c + 1
        ensures x in t1
      {
        if x == c {
          assert x in Columns(c, cells[0].colspan);
        } else if x >= next {
          assert next <= x < Skip(taken, next);
        }
      }
      TakenBelowWidth(row, cells[1..], t1, c + 1);
      var rest := Place(row, cells[1..], t1, c + 1);
      assert p.taken == rest.taken && p.next == rest.next;
      assert Width(p) == Width(rest);
      forall x: nat | x < Width(p)
        ensures x in p.taken
      {
        assert x < Width(rest);
        assert x in rest.taken;
      }
    }
  }

  /** The cells of a walked row cover only columns at or right of the first free column. */
  lemma {:induction false} OwnColumnsFrom(row: nat, cells: seq<Cell>, taken: set<nat>, next: nat)
    ensures forall x :: x in OwnColumns(Place(row, cells, taken, next).slots) ==> x >= Skip(taken, next)
    decreases |cells|
  {
    if cells != [] {
      var c := Skip(taken, next);
      var cs: nat := cells[0].colspan;
      var t1 := taken + Columns(c, cs);
      var p := Place(row, cells, taken, next);
      var rest := Place(row, cells[1..], t1, c + 1);
      OwnColumnsFrom(row, cells[1..], t1, c + 1);
      assert p.slots[0].column == c && p.slots[0].colspan == cs && p.slots[1..] == rest.slots;
      assert OwnColumns(p.slots) == Columns(c, cs) + OwnColumns(rest.slots);
      ColumnsMembers(c, cs);
    }
  }

  /**
   * The cells of a walked row cover pairwise different columns, so together they cover as many
   * columns as their colspans add up to.
   */
  lemma {:induction false} OwnColumnsCount(row: nat, cells: seq<Cell>, taken: set<nat>, next: nat)
    ensures |OwnColumns(Place(row, cells, taken, next).slots)| == ColspanSum(cells)
    decreases |cells|
  {
    if cells != [] {
      var c := Skip(taken, next);
      var cs: nat := cells[0].colspan;
      var t1 := taken + Columns(c, cs);
      var p := Place(row, cells, taken, next);
      var rest := Place(row, cells[1..], t1, c + 1);
      var head := Columns(c, cs);
      var tail := OwnColumns(rest.slots);
      OwnColumnsCount(row, cells[1..], t1, c + 1);
      OwnColumnsFrom(row, cells[1..], t1, c + 1);
      ColumnsMembers(c, cs);
      SkipPast(t1, c + 1, c + cs);
      assert forall x :: x in tail ==> x >= c + cs;
      ColumnsCount(c, cs);
      assert p.slots[0].column == c && p.slots[0].colspan == cs && p.slots[1..] == rest.slots;
      assert OwnColumns(p.slots) == head + tail;
      assert head * tail == {};
    }
  }

  /** The members of `s` left of column `w`. */
  function Below(s: set<nat>, w: nat): set<nat>
  {
    set x | x in s && x < w
  }

  /** The walk of the first `m` rows is the first `m` walks of the table. */
  lemma {:induction false} LayoutsPrefix(rows: seq<seq<Cell>>, m: nat)
    requires m <= |rows|
    ensures Layouts(rows[..m]) == Layouts(rows)[..m]
    decreases |rows|
  {
    if m < |rows| {
      var n := |rows| - 1;
      assert rows[..n][..m] == rows[..m];
      LayoutsPrefix(rows[..n], m);
    } else {
      assert rows[..m] == rows;
    }
  }

  /** Row `r` is walked with the columns that the rows above it carry into it. */
  lemma {:induction false} LayoutAt(rows: seq<seq<Cell>>, r: nat)
    requires r < |rows|
    ensures Layouts(rows)[r] == Place(r, rows[r], CarriedInto(Layouts(rows)[..r], r), 0)
  {
    var upto := rows[..r + 1];
    LayoutsPrefix(rows, r + 1);
    LayoutsPrefix(rows, r);
    assert upto[..r] == rows[..r];
    assert upto[r] == rows[r];
    var prev := Layouts(rows[..r]);
    assert Layouts(upto) == prev + [Place(r, rows[r], CarriedInto(prev, r), 0)];
    assert Layouts(rows)[r] == Layouts(upto)[r];
  }

  /**
   * Walking cells from column 0 with the columns `carried` already taken, the columns left of the
   * width are exactly the carried ones and those the cells cover, and the width column is neither.
   */
  lemma PlaceWidthCovers(row: nat, cells: seq<Cell>, carried: set<nat>)
    ensures var p := Place(row, cells, carried, 0);
            && (forall x: nat :: x < Width(p) <==> x in Below(carried, Width(p)) || x in OwnColumns(p.slots))
            && Width(p) !in carried && Width(p) !in OwnColumns(p.slots)
  {
    var p := Place(row, cells, carried, 0);
    var w := Width(p);
    PlaceTaken(row, cells, carried, 0);
    TakenBelowWidth(row, cells, carried, 0);
    OwnColumnsBelowWidth(row, cells, carried, 0);
    forall x: nat
      ensures x < w <==> x in Below(carried, w) || x in OwnColumns(p.slots)
    {
      if x < w {
        assert x in p.taken;
      }
    }
  }

  /** When no cell reaches over a carried column, the width is the colspan sum plus the carried columns left of it. */
  lemma PlaceWidthCount(row: nat, cells: seq<Cell>, carried: set<nat>)
    requires carried * OwnColumns(Place(row, cells, carried, 0).slots) == {}
    ensures Width(Place(row, cells, carried, 0)) == ColspanSum(cells) + |Below(carried, Width(Place(row, cells, carried, 0)))|
  {
    var p := Place(row, cells, carried, 0);
    var w := Width(p);
    var own := OwnColumns(p.slots);
    var below := Below(carried, w);
    PlaceWidthCovers(row, cells, carried);
    OwnColumnsCount(row, cells, carried, 0);
    ColumnsMembers(0, w);
    ColumnsCount(0, w);
    assert Columns(0, w) == below + own;
    assert below * own == {};
  }

  /**
   * What a row's width counts: walking cells from column 0 with the columns `carried` already
   * taken, the columns left of the width are exactly the carried ones and those the cells cover,
   * and the width column itself is neither. When no cell reaches over a carried column, the width
   * is the sum of the colspans plus the number of carried columns left of it.
   */
  lemma PlaceWidthColumns(row: nat, cells: seq<Cell>, carried: set<nat>)
    ensures var p := Place(row, cells, carried, 0);
            var own := OwnColumns(p.slots);
            && (forall x: nat :: x < Width(p) <==> x in Below(carried, Width(p)) || x in own)
            && Width(p) !in carried && Width(p) !in own
            && (carried * own == {} ==> Width(p) == ColspanSum(cells) + |Below(carried, Width(p))|)
  {
    PlaceWidthCovers(row, cells, carried);
    if carried * OwnColumns(Place(row, cells, carried, 0).slots) == {} {
      PlaceWidthCount(row, cells, carried);
    }
  }

  /**
   * A row's width counts its own cells' columns plus the columns carried down into it by the
   * rowspans of earlier rows: the columns left of the width are exactly those, and the width
   * column itself is neither. When no cell of the row reaches over a carried column, the width is
   * the sum of the row's colspans plus the number of carried columns left of it.
   */
  lemma RowWidthColumns(rows: seq<seq<Cell>>, r: nat)
    requires r < |rows|
    ensures var p := Layouts(rows)[r];
            var w := RowWidths(rows)[r];
            var carried := CarriedInto(Layouts(rows)[..r], r);
            && (forall x: nat :: x < w <==> x in Below(carried, w) || x in OwnColumns(p.slots))
            && w !in carried && w !in OwnColumns(p.slots)
            && (carried * OwnColumns(p.slots) == {} ==> w == ColspanSum(rows[r]) + |Below(carried, w)|)
  {
    var ls := Layouts(rows);
    assert RowWidths(rows)[r] == Width(ls[r]);
    LayoutAt(rows, r);
    PlaceWidthColumns(r, rows[r], CarriedInto(ls[..r], r));
  }

  /** A column is carried into row `r` exactly when a walked slot of an earlier row covers it there. */
  lemma {:induction false} CarriedByRowMembership(slots: seq<Slot>, r: nat, x: nat)
    ensures x in CarriedByRow(slots, r) <==> exists k :: 0 <= k < |slots| && Covers(slots[k], r, x)
    decreases |slots|
  {
    if slots != [] {
      ColumnsMembers(slots[0].column, slots[0].colspan);
      CarriedByRowMembership(slots[1..], r, x);
      if exists k :: 0 <= k < |slots| && Covers(slots[k], r, x) {
        var k :| 0 <= k < |slots| && Covers(slots[k], r, x);
        if k > 0 {
          assert Covers(slots[1..][k - 1], r, x);
        }
      }
      if exists k :: 0 <= k < |slots[1..]| && Covers(slots[1..][k], r, x) {
        var k :| 0 <= k < |slots[1..]| && Covers(slots[1..][k], r, x);
        assert Covers(slots[k + 1], r, x);
      }
    }
  }

  /** `CarriedInto` is the set of columns of row `r` that some slot of an earlier walk covers. */
  lemma {:induction false} CarriedIntoMembership(ls: seq<Placement>, r: nat, x: nat)
    ensures x in CarriedInto(ls, r) <==>
      exists i, k :: 0 <= i < |ls| && 0 <= k < |ls[i].slots| && Covers(ls[i].slots[k], r, x)
    decreases |ls|
  {
    if ls != [] {
      var n := |ls| - 1;
      CarriedIntoMembership(ls[..n], r, x);
      CarriedByRowMembership(ls[n].slots, r, x);
      if exists i, k :: 0 <= i < |ls| && 0 <= k < |ls[i].slots| && Covers(ls[i].slots[k], r, x) {
        var i, k :| 0 <= i < |ls| && 0 <= k < |ls[i].slots| && Covers(ls[i].slots[k], r, x);
        if i < n {
          assert ls[..n][i] == ls[i];
        }
      }
      if exists i, k :: 0 <= i < |ls[..n]| && 0 <= k < |ls[..n][i].slots| && Covers(ls[..n][i].slots[k], r, x) {
        var i, k :| 0 <= i < |ls[..n]| && 0 <= k < |ls[..n][i].slots| && Covers(ls[..n][i].slots[k], r, x);
        assert ls[..n][i] == ls[i];
      }
    }
  }

  /** Appending slots of single-row cells does not change what a row carries into later rows. */
  lemma {:induction false} CarriedByRowAppend(a: seq<Slot>, b: seq<Slot>, r: nat)
    requires forall k :: 0 <= k < |b| ==> b[k].rowspan <= 1
    ensures CarriedByRow(a + b, r) == CarriedByRow(a, r)
    decreases |a|
  {
    if a == [] {
      assert a + b == b;
      SingleRowsCarryNothing(b, r);
    } else {
      assert (a + b)[0] == a[0];
      assert (a + b)[1..] == a[1..] + b;
      CarriedByRowAppend(a[1..], b, r);
    }
  }

  /** Slots of single-row cells carry nothing into later rows. */
  lemma {:induction false} SingleRowsCarryNothing(b: seq<Slot>, r: nat)
    requires forall k :: 0 <= k < |b| ==> b[k].rowspan <= 1
    ensures CarriedByRow(b, r) == {}
    decreases |b|
  {
    if b != [] {
      SingleRowsCarryNothing(b[1..], r);
    }
  }

  /** `p'` walks the same cells as `p`, then goes on with cells that span a single row. */
  predicate Prolongs(p: Placement, p': Placement)
  {
    && |p.slots| <= |p'.slots|
    && p'.slots[..|p.slots|] == p.slots
    && forall k :: |p.slots| <= k < |p'.slots| ==> p'.slots[k].rowspan <= 1
  }

  /**
   * Two walks of the same rows, each row of the second one prolonged, carry the same columns from
   * the first `m` rows.
   */
  lemma {:induction false} CarriedIntoProlonged(ls: seq<Placement>, ls': seq<Placement>, m: nat, r: nat)
    requires m <= |ls| && m <= |ls'|
    requires forall i :: 0 <= i < m ==> Prolongs(ls[i], ls'[i])
    ensures CarriedInto(ls'[..m], r) == CarriedInto(ls[..m], r)
    decreases m
  {
    if m > 0 {
      var n := m - 1;
      CarriedIntoProlonged(ls, ls', n, r);
      assert ls[..m][..n] == ls[..n];
      assert ls'[..m][..n] == ls'[..n];
      var a := ls[n].slots;
      var all := ls'[n].slots;
      var b := all[|a|..];
      assert all == a + b;
      CarriedByRowAppend(a, b, r);
    }
  }

  /** Whatever lies right of a row's width and is still taken: columns held by rowspans from above. */
  function Overhang(p: Placement): nat
  {
    |AtOrAfter(p.taken, Width(p))|
  }

  /** The overhang of every row. */
  function Overhangs(rows: seq<seq<Cell>>): (o: seq<nat>)
    ensures |o| == |rows|
  {
    var ls := Layouts(rows);
    seq(|ls|, r requires 0 <= r < |ls| => Overhang(ls[r]))
  }

  /** The sum of a sequence. */
  function Sum(s: seq<nat>): nat
  {
    if s == [] then 0 else s[0] + Sum(s[1..])
  }

  /** `p'` is the walk `p` continued over `k` empty cells. */
  predicate ExtendsBy(p: Placement, p': Placement, row: nat, k: nat)
  {
    var pe := Place(row, Empties(k), p.taken, p.next);
    p' == Placement(p.slots + pe.slots, pe.taken, pe.next)
  }

  lemma {:induction false} ExtendsProlongs(p: Placement, p': Placement, row: nat, k: nat)
    requires ExtendsBy(p, p', row, k)
    ensures Prolongs(p, p')
  {
    var pe := Place(row, Empties(k), p.taken, p.next);
    PlaceSlots(row, Empties(k), p.taken, p.next);
    assert (p.slots + pe.slots)[..|p.slots|] == p.slots;
  }

  /**
   * Appending empty cells to the rows of a table leaves every existing cell where it was: each
   * row's walk is its old walk continued over the new cells.
   */
  lemma {:induction false} LayoutsOfExtended(rows: seq<seq<Cell>>, ks: seq<nat>)
    requires |ks| == |rows|
    ensures var ls := Layouts(rows);
            var ls' := Layouts(Extend(rows, ks));
            forall r :: 0 <= r < |rows| ==> ExtendsBy(ls[r], ls'[r], r, ks[r])
    decreases |rows|, 1
  {
    if rows != [] {
      var n := |rows| - 1;
      ExtendedPrefix(rows, ks);
      var ls := Layouts(rows);
      var ls' := Layouts(Extend(rows, ks));
      forall i | 0 <= i < n
        ensures Prolongs(ls[i], ls'[i])
      {
        ExtendsProlongs(ls[i], ls'[i], i, ks[i]);
      }
      ExtendedLast(rows, ks);
    }
  }

  /** The rows above the last one, by induction. */
  lemma {:induction false} ExtendedPrefix(rows: seq<seq<Cell>>, ks: seq<nat>)
    requires |ks| == |rows| > 0
    ensures var ls := Layouts(rows);
            var ls' := Layouts(Extend(rows, ks));
            forall r :: 0 <= r < |rows| - 1 ==> ExtendsBy(ls[r], ls'[r], r, ks[r])
    decreases |rows|, 0
  {
    var n := |rows| - 1;
    var out := Extend(rows, ks);
    assert out[..n] == Extend(rows[..n], ks[..n]);
    LayoutsOfExtended(rows[..n], ks[..n]);
    LayoutsPrefix(rows, n);
    LayoutsPrefix(out, n);
    var ls := Layouts(rows);
    var ls' := Layouts(out);
    forall i | 0 <= i < n
      ensures ExtendsBy(ls[i], ls'[i], i, ks[i])
    {
      assert ks[..n][i] == ks[i];
      assert ls[..n][i] == ls[i];
      assert ls'[..n][i] == ls'[i];
    }
  }

  /** The last row, walked with the same carried columns as before. */
  lemma {:induction false} ExtendedLast(rows: seq<seq<Cell>>, ks: seq<nat>)
    requires |ks| == |rows| > 0
    requires var ls := Layouts(rows);
             var ls' := Layouts(Extend(rows, ks));
             forall r :: 0 <= r < |rows| - 1 ==> Prolongs(ls[r], ls'[r])
    ensures var n := |rows| - 1;
            ExtendsBy(Layouts(rows)[n], Layouts(Extend(rows, ks))[n], n, ks[n])
  {
    var n := |rows| - 1;
    var out := Extend(rows, ks);
    assert forall i :: 0 <= i < n ==> Prolongs(Layouts(rows)[i], Layouts(Extend(rows, ks))[i]);
    CarriedIntoProlonged(Layouts(rows), Layouts(Extend(rows, ks)), n, n);
    var ls := Layouts(rows);
    var ls' := Layouts(out);
    var carried := CarriedInto(ls[..n], n);
    LayoutAt(rows, n);
    LayoutAt(out, n);
    assert ls'[n] == Place(n, rows[n] + Empties(ks[n]), carried, 0);
    PlaceSplit(n, rows[n], Empties(ks[n]), carried, 0);
  }

  /**
   * The widths and overhangs of a table whose rows were extended by `ks[r]` empty cells: each row
   * is at least `ks[r]` slots wider, by exactly as much more as its overhang shrank, and every
   * existing cell keeps its grid slot.
   */
  lemma ExtendedWidths(rows: seq<seq<Cell>>, ks: seq<nat>)
    requires |ks| == |rows|
    ensures var out := Extend(rows, ks);
            forall r :: 0 <= r < |rows| ==>
              && RowWidths(out)[r] >= RowWidths(rows)[r] + ks[r]
              && RowWidths(out)[r] + Overhangs(out)[r] == RowWidths(rows)[r] + ks[r] + Overhangs(rows)[r]
              && Layouts(out)[r].slots[..|rows[r]|] == Layouts(rows)[r].slots
  {
    var out := Extend(rows, ks);
    LayoutsOfExtended(rows, ks);
    forall r | 0 <= r < |rows|
      ensures RowWidths(out)[r] >= RowWidths(rows)[r] + ks[r]
      ensures RowWidths(out)[r] + Overhangs(out)[r] == RowWidths(rows)[r] + ks[r] + Overhangs(rows)[r]
      ensures Layouts(out)[r].slots[..|rows[r]|] == Layouts(rows)[r].slots
    {
      var p := Layouts(rows)[r];
      assert ExtendsBy(p, Layouts(out)[r], r, ks[r]);
      EmptiesPlacement(r, ks[r], p.taken, p.next);
      ExtendsProlongs(p, Layouts(out)[r], r, ks[r]);
    }
  }

  /** No literal cell spans more than one row. */
  predicate SingleRowCells(rows: seq<seq<Cell>>)
  {
    forall r, k :: 0 <= r < |rows| && 0 <= k < |rows[r]| ==> rows[r][k].rowspan == 1
  }

  /**
   * Without rowspans nothing is carried from row to row: every cell starts where the colspans of
   * the cells before it in its row end, and a row is as wide as the sum of its colspans.
   */
  lemma SingleRowLayouts(rows: seq<seq<Cell>>)
    requires SingleRowCells(rows)
    ensures forall r :: 0 <= r < |rows| ==> RowWidths(rows)[r] == ColspanSum(rows[r])
    ensures forall r, k :: 0 <= r < |rows| && 0 <= k < |rows[r]| ==> ColumnOf(rows, r, k) == ColspanSum(rows[r][..k])
  {
    var ls := Layouts(rows);
    forall r | 0 <= r < |rows|
      ensures Width(ls[r]) == ColspanSum(rows[r])
      ensures forall k :: 0 <= k < |rows[r]| ==> ls[r].slots[k].column == ColspanSum(rows[r][..k])
    {
      forall x: nat
        ensures x !in CarriedInto(ls[..r], r)
      {
        CarriedIntoMembership(ls[..r], r, x);
        forall i, k | 0 <= i < r && 0 <= k < |ls[i].slots|
          ensures !Covers(ls[i].slots[k], r, x)
        {
          LayoutAt(rows, i);
          PlaceSlots(i, rows[i], CarriedInto(ls[..i], i), 0);
        }
        assert forall i :: 0 <= i < r ==> ls[..r][i] == ls[i];
      }
      assert CarriedInto(ls[..r], r) == {};
      LayoutAt(rows, r);
      assert AtOrAfter({}, 0) == Columns(0, 0);
      PlaceFromInterval(r, rows[r], {}, 0, 0);
    }
  }
}
