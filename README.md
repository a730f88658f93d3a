# ckeditor5-table: grid, headings, post-fixer and the insert-table command

This project models the table feature of the CKEditor 5 editor. A table in the document model is a
sequence of rows. Each row is a sequence of literal cells, and each cell has a `rowspan`, a
`colspan` and opaque contents. The table also carries the `headingRows` and `headingColumns`
attributes. Four linked pieces are modelled and proved:

- **Grid resolution** (`grid.dfy`, module `Grid`). Every literal cell gets the grid column where it
  starts. The rules are those of the table-forming algorithm in the HTML Living Standard
  (section 4.9.12, "Processing model"). A cell takes the first column that is still free. Columns
  are taken by rowspans carried down from earlier rows and by earlier cells of the same row, and a
  cell takes `colspan` columns for `rowspan` rows. A row is as wide as the grid slots the walk
  visits in it.
- **Heading classification and sections** (`headings.dfy`, module `Headings`). This is the
  rendering that the editing-view converters produce, reduced to its structure. Rows below
  `headingRows` form the head section and the rest form the body; a section without rows is left
  out. A cell is a heading cell exactly when its row is below `headingRows` or its start column is
  below `headingColumns`.
- **The post-fixer** (`postfixer.dfy`, module `PostFixer`, and the class
  `TableEditing.TableModel` in `tablemodel.dfy`). First it trims every rowspan that runs past the
  end of its section. That end is the heading boundary for a cell that starts in a heading row,
  and the end of the table otherwise. Then it appends empty 1x1 cells to each row that is
  narrower than the widest row. The document model re-runs a post-fixer for as long as it reports
  a change. The repaired table is therefore the fixed point of the pass. `TableModel.PostFix`
  computes it with loops over the rows and cells, in place. `PostFixer.Repaired` is the function
  that specifies it.
- **The insert-table command** (`inserttable.dfy`, module `InsertTable`). It covers:
  - defaulting of the `rows` and `columns` options by `parseInt(...) || 2`;
  - the parent that the schema check is made on;
  - where the table is inserted;
  - the `isEnabled` flag;
  - the selection after `execute`.

The rest of the project holds the expected outcomes of the repository's tests, each proved:

- `postfixer_cases.dfy` holds the post-fixer tests.
- `tableediting_cases.dfy` holds the tests that apply two sets of changes one after the other.
  Each replays both sets through `TableModel` with the post-fixer run after each set and arrives
  at the test's final table.
- `downcast_cases.dfy` holds the rendering tests. Each builds the table, applies the test's writer
  operations through `TableModel` and renders it. The result is the expected sequence of sections,
  with each cell a heading or data cell and its spans and contents.

`tables.dfy` (module `Tables`) holds the shared data model.

## Model

| member | source | states |
|---|---|---|
| Grid.Skip | tests/converters/downcast.js:280-314 | the column found is free, and every column between the cursor and it is taken |
| Grid.PlaceFirstFree | tests/converters/downcast.js:280-314 | a literal cell starts at the first column, at or right of one past the previous cell's column, that is neither taken on entry to the row nor covered by an earlier cell of the row |
| Grid.PlaceSlots | tests/converters/downcast.js:280-314 | every placed cell keeps its row and its own rowspan and colspan |
| Grid.LayoutAt | tests/converters/downcast.js:826-865 | each row is walked with exactly the columns that the rowspans of the rows above reach into it |
| Grid.CarriedByRowMembership | tests/converters/downcast.js:511-538 | a column is carried into a row exactly when an earlier cell's rowspan covers that row, so once a rowspan has ended it shifts nothing |
| Grid.SingleRowLayouts | tests/converters/downcast.js:262-278 | without rowspans a cell starts at the sum of the colspans before it in its row, and a row is as wide as the sum of its colspans |
| Grid.PlaceWidthColumns | tests/tableediting.js:390-407 | walking a row with some columns already taken, the columns left of its width are exactly the taken ones and those its cells cover, the width column is neither, and without overlap the width is the colspan sum plus the taken columns left of it |
| Grid.RowWidthColumns | tests/tableediting.js:390-426 | a row's width counts its own cells' columns plus the columns carried down by rowspans of earlier rows and nothing else; without overlap it is the row's colspan sum plus the carried columns left of it |
| Grid.MaxOf | tests/tableediting.js:409-426 | the table width is a row width and no row is wider |
| Grid.ExtendedWidths | tests/tableediting.js:390-407 | appending `k` empty cells widens a row by at least `k`, by exactly `k` plus the overhang it uncovers, and keeps every existing cell in its grid slot |
| Grid.PlaceSplit | tests/tableediting.js:390-407 | walking a row in two parts is walking it whole |
| PostFixer.TrimCell | tests/tableediting.js:428-445 | a rowspan that reaches past the section end is cut so the cell ends exactly there; other cells are unchanged; contents and colspan are kept |
| PostFixer.ClampRowspans | tests/tableediting.js:447-464 | every rowspan ends within its section (the heading boundary for heading rows, the table end for body rows); fitting cells, contents, colspans, row counts and heading counters are unchanged |
| PostFixer.ClampRowspansChanges | tests/tableediting.js:428-445 | trimming changes the table exactly when some rowspan runs past its section |
| PostFixer.Shortfalls | tests/tableediting.js:371-388 | each row's shortfall plus its width is the table width |
| PostFixer.PadRowsShape | tests/tableediting.js:371-388 | padding only appends empty 1x1 cells at row ends, keeps every existing cell and its grid slot, and brings every row to at least the old table width |
| PostFixer.PadRowsChanges | tests/tableediting.js:390-407 | padding changes the table exactly when the rows differ in width, so a table at full width is left unchanged |
| PostFixer.PadRowsProgress | tests/tableediting.js:409-426 | a padding step never increases the overhang that padding can uncover, and when that overhang stays the same the rows come out equally wide |
| PostFixer.Settle | tests/tableediting.js:409-426 | repeated padding ends with rows of equal width that only extend the original rows |
| PostFixer.PadRowsKeepsFit | tests/tableediting.js:447-464 | padding keeps every rowspan within its section |
| PostFixer.RepairedIsValid | tests/tableediting.js:466-640 | after repair every rowspan fits its section and every row has the same width, whatever edits came before |
| PostFixer.RepairedChanges | tests/tableediting.js:592-640 | repair keeps the heading counters, the row count and every existing cell's contents and colspan; it only shortens rowspans that run past their section and appends empty cells |
| PostFixer.RepairedKeepsValid | tests/tableediting.js:390-407 | a table whose rowspans fit and whose rows are equally wide is left unchanged |
| PostFixer.RepairedIdempotent | tests/tableediting.js:660-676 | repairing a repaired table changes nothing, so replaying the same changes reproduces the same table |
| PostFixer.NoOverhangRepair | tests/tableediting.js:409-426 | when nothing is carried past any row's end, a single padding step to the table width repairs the table |
| PostFixer.SingleRowRepair | tests/tableediting.js:371-388 | without rowspans the repair is one padding step that brings every row's colspan sum to the table width |
| PostFixer.PassFixesIffChanged | tests/tableediting.js:371-464 | a pass reports a fix exactly when it changes the table |
| PostFixer.PassTowardsRepaired | tests/tableediting.js:371-464 | a pass does not change what the repair ends at, so re-running the post-fixer until it reports no change reaches the repaired table |
| TableEditing.TableModel.PostFix | tests/tableediting.js:371-464 | the table element holds the repaired table once the post-fixer loop stops |
| TableEditing.TableModel.PostFixPass | tests/tableediting.js:371-464 | one run of the post-fixer leaves the pass's result and reports whether it changed anything |
| TableEditing.TableModel.FixRowspans | tests/tableediting.js:428-464 | the rowspan loop leaves the trimmed table and reports whether some rowspan ran past its section |
| TableEditing.TableModel.TrimRowspans | tests/tableediting.js:428-445 | one row's cells are trimmed to the limit, the other rows are untouched, and it reports whether a cell reached past the limit |
| TableEditing.TableModel.FixRowSizes | tests/tableediting.js:371-426 | the padding loop leaves the padded table and reports whether the rows differed in width |
| TableEditing.TableModel.PadEachRow | tests/tableediting.js:371-426 | every row gets exactly the empty cells it falls short by, and the report says whether any row fell short |
| TableEditing.TableModel.AppendEmptyCells | tests/tableediting.js:371-388 | `count` empty cells end up at the end of one row; nothing else changes |
| TableEditing.Largest | tests/tableediting.js:409-426 | the scan finds the largest row width |
| TableEditing.AfterPass | tests/tableediting.js:371-388 | a pass that reports no change leaves a table that is its own repair |
| TableEditing.TableModel.InsertRow | tests/tableediting.js:696-705 | the row is inserted at its index, the other rows keep their order, and the heading counters are unchanged |
| TableEditing.TableModel.RemoveRow | tests/tableediting.js:689-694 | the row at the index is removed, and the others keep their order |
| TableEditing.TableModel.InsertCell | tests/tableediting.js:707-712 | an empty cell is inserted at the index of one row; nothing else changes |
| TableEditing.TableModel.SetColspan | tests/tableediting.js:714-718 | exactly one cell's colspan changes |
| TableEditing.TableModel.SetRowspan | tests/tableediting.js:714-718 | exactly one cell's rowspan changes |
| TableEditing.TableModel.RemoveColumn | tests/tableediting.js:678-687 | the cell at the index is removed from each listed row, the other rows are untouched |
| TableEditing.TableModel.InsertColumn | tests/tableediting.js:720-729 | an empty cell is inserted at the index into each listed row, the other rows are untouched |
| TableEditing.TableModel.SetHeadingRows | tests/converters/downcast.js:909-1006 | only `headingRows` changes |
| TableEditing.TableModel.SetHeadingColumns | tests/converters/downcast.js:733-803 | only `headingColumns` changes |
| TableEditing.RemoveInsertedRow | tests/tableediting.js:689-705 | removing a row just inserted gives the rows back |
| TableEditing.RemoveInsertedColumn | tests/tableediting.js:678-687 | removing a column of cells just inserted gives the rows back |
| TableEditing.CellInsertedShifts | tests/converters/downcast.js:589-643 | without rowspans, a cell inserted at index `i` starts where cell `i` started; earlier cells keep their columns, later cells move right by its colspan, and no other row moves |
| Headings.DowncastSections | tests/converters/downcast.js:73-109 | every row is rendered once and in order, the head comes before the body, no section is empty, and the head exists exactly when there are heading rows |
| Headings.DowncastCellAt | tests/converters/downcast.js:111-129 | a model cell renders in the head or the body by its row, and is a heading cell exactly when its row is a heading row or its start column is a heading column, with its spans and contents |
| Headings.NoHeadings | tests/converters/downcast.js:59-71 | without heading rows or columns the table renders as one body of data cells |
| Headings.AllHeadingRows | tests/converters/downcast.js:990-1006 | with as many heading rows as rows the table renders as a head only |
| Headings.HeadingColumnsChange | tests/converters/downcast.js:733-803 | changing `headingColumns` re-renders exactly the body-row cells whose start column lies between the old and the new value |
| Headings.HeadingRowsChange | tests/converters/downcast.js:909-1006 | changing `headingRows` re-renders exactly the cells in the rows between the old and the new value that are not in heading columns |
| PostFixerCases.ShortRowsRepaired | tests/tableediting.js:371-388 | rows shorter than the longest one get the empty cells they lack at their ends |
| PostFixerCases.Spanned1Repaired | tests/tableediting.js:390-407 | the row under a two-row cell counts the column it takes, and the other rows are padded to four columns |
| PostFixerCases.Spanned2Repaired | tests/tableediting.js:409-426 | a colspan-6 first row pads the later rows to six columns, counting the column a rowspan takes |
| PostFixerCases.HeaderSpansRepaired | tests/tableediting.js:428-445 | in the head, '01' goes from rowspan 3 to 2 and '12' from 8 to 1, and the span within bounds is untouched |
| PostFixerCases.BodySpansRepaired | tests/tableediting.js:447-464 | in the body, '11' goes from rowspan 3 to 2 and '22' from 8 to 1 |
| TableEditingCases.RemoveColumnThenInsertRow | tests/tableediting.js:466-484 | after a column removal and a row insertion, the repaired table is the test's final table |
| TableEditingCases.InsertRowThenRemoveColumn | tests/tableediting.js:486-503 | the same edits in the other order give the same final table |
| TableEditingCases.InsertRowThenInsertColumn | tests/tableediting.js:505-522 | after a row and a column insertion, the new row gets an empty cell |
| TableEditingCases.InsertColumnThenInsertRow | tests/tableediting.js:524-542 | the same edits in the other order give the same final table |
| TableEditingCases.WidenAndInsertLateThenEarly | tests/tableediting.js:544-566 | both sides widen the spanned row and insert a column: the first row gets one empty cell |
| TableEditingCases.WidenAndInsertEarlyThenLate | tests/tableediting.js:568-590 | the inverted insertions give the same final table |
| TableEditingCases.HeadThenRemoveRow | tests/tableediting.js:592-615 | one heading row, '12' set to rowspan 1 and a cell added to the second row, then the second row removed: two rows of three cells with one heading row |
| TableEditingCases.RemoveRowThenHead | tests/tableediting.js:617-640 | the second row removed, then one heading row and '12' set to rowspan 1: both rows end four cells long, with one heading row |
| DowncastCases.LoneShown | tests/converters/downcast.js:59-71 | a table without headings renders as one body of data cells |
| DowncastCases.ColumnShown | tests/converters/downcast.js:73-91 | one heading row renders as a head of heading cells above a body of data cells |
| DowncastCases.ColumnHeadShown | tests/converters/downcast.js:93-109 | with every row a heading row there is a head and no body |
| DowncastCases.CornerShown | tests/converters/downcast.js:111-129 | heading rows and heading columns together choose the heading cells |
| DowncastCases.TwoColumnsHeadShown | tests/converters/downcast.js:244-260 | the cells in the first two columns are heading cells |
| DowncastCases.CsShown | tests/converters/downcast.js:262-278 | a colspan-2 cell at column 0 pushes the next cell to column 2, past the heading columns |
| DowncastCases.SpShown | tests/converters/downcast.js:280-314 | rowspans and colspans shift start columns: '11' starts at column 1 and '32' at column 2 |
| DowncastCases.InsertRowAtEnd | tests/converters/downcast.js:352-372 | an appended row renders below the first |
| DowncastCases.InsertRowsAtEnd | tests/converters/downcast.js:374-409 | two appended rows render in order |
| DowncastCases.InsertRowInMiddle | tests/converters/downcast.js:411-435 | a row inserted at index 1 renders at index 1 |
| DowncastCases.InsertRowBesideSpan | tests/converters/downcast.js:489-509 | a row added beside a three-row cell renders under the existing rows |
| DowncastCases.InsertRowsUnderSpan | tests/converters/downcast.js:511-538 | after the three-row cell ends, the next row starts at column 0 again and its first cell is in the heading column |
| DowncastCases.InsertCellInRow | tests/converters/downcast.js:590-606 | an inserted cell renders at its index in the row |
| DowncastCases.InsertCellAfterColspan | tests/converters/downcast.js:608-624 | an inserted cell renders after a cell spanning two columns |
| DowncastCases.InsertCellsBesideRowspan | tests/converters/downcast.js:626-643 | inserted cells render at their indices beside a cell spanning two rows |
| DowncastCases.SplitCell | tests/converters/downcast.js:645-665 | a cell inserted above a widened cell renders as in the split test |
| DowncastCases.MergeCells | tests/converters/downcast.js:667-686 | a widened cell with its neighbour removed renders as in the merge test |
| DowncastCases.AddHeadingColumn | tests/converters/downcast.js:734-750 | one new heading column turns the first cell of each row into a heading cell |
| DowncastCases.WidenHeadingColumns | tests/converters/downcast.js:752-768 | going from 1 to 3 heading columns turns the second and third cells into heading cells |
| DowncastCases.NarrowHeadingColumns | tests/converters/downcast.js:770-786 | going from 3 to 1 heading columns turns them back into data cells |
| DowncastCases.RemoveHeadingColumns | tests/converters/downcast.js:788-803 | removing the heading columns leaves data cells only |
| DowncastCases.InsertHeadingColumn | tests/converters/downcast.js:826-865 | with 3 heading columns and a cell inserted in column 2 of each row, exactly the cells starting left of column 3 are heading cells |
| DowncastCases.AddHeadingRows | tests/converters/downcast.js:910-928 | two new heading rows form a head above a one-row body |
| DowncastCases.RaiseHeadingRows | tests/converters/downcast.js:930-948 | going from 1 to 2 heading rows gives the same view |
| DowncastCases.LowerHeadingRows | tests/converters/downcast.js:950-970 | going from 3 to 2 heading rows moves the third row to the body |
| DowncastCases.RemoveHeadingRows | tests/converters/downcast.js:972-988 | removing the heading rows moves every row to the body |
| DowncastCases.HeadingRowsWithoutBody | tests/converters/downcast.js:990-1006 | making every row a heading row leaves no body |
| DowncastCases.InsertHeadingRowAtStart | tests/converters/downcast.js:1029-1052 | a row inserted at the start together with a second heading row: the head holds the new row and '00''s row |
| DowncastCases.InsertHeadingRowBelowHead | tests/converters/downcast.js:1054-1079 | a row inserted at index 1 together with a second heading row joins the head |
| InsertTable.CountOrDefault | src/commands/inserttablecommand.js:48-49 | the count is what `parseInt` reads from the option, or 2 when it reads no number or reads 0; it is never 0 |
| InsertTable.IntegerCount | src/commands/inserttablecommand.js:48 | an integer option below 10^21 in magnitude is taken as it is, except that 0 becomes 2 |
| InsertTable.AbsentCount | src/commands/inserttablecommand.js:48 | a missing option gives 2 |
| InsertTable.TextWithoutNumberCount | src/commands/inserttablecommand.js:48 | a string that does not start with a number gives 2 |
| InsertTable.HexadecimalCount | src/commands/inserttablecommand.js:49 | `parseInt` reads a `0x` string in radix 16 |
| InsertTable.EmptyHexadecimalCount | src/commands/inserttablecommand.js:49 | `"0x"` without digits gives 2 |
| InsertTable.NegativeCount | src/commands/inserttablecommand.js:48 | a negative option such as `"-1"` is a negative count, since the fallback to 2 replaces only NaN and 0 |
| InsertTable.IntegerRoundTrip | src/commands/inserttablecommand.js:48 | an integer below 10^21 in magnitude, printed in decimal, is read back as itself |
| InsertTable.InsertParent | src/commands/inserttablecommand.js:67-71 | the parent of the position when that parent is the root, otherwise the parent's parent |
| InsertTable.InsertPosition | src/commands/inserttablecommand.js:53-54 | the position itself when its parent is the root, otherwise the position just after the parent block |
| InsertTable.InsertPositionValid | src/commands/inserttablecommand.js:51-54 | the insert position lies in the element the enabled flag was computed for, and is valid there |
| InsertTable.InsertTableCommand.Refresh | src/commands/inserttablecommand.js:23-31 | `isEnabled` is the schema verdict on a `table` inside the insert parent of the selection |
| InsertTable.InsertTableCommand.Execute | src/commands/inserttablecommand.js:43-61 | the table built from the defaulted counts goes in at the insert position; the command succeeds, and puts the selection at the start of the table's first cell, exactly when that table has a first row holding a first cell, and otherwise fails with the selection unchanged |
| InsertTable.ExecuteSelectsFirstCell | src/commands/inserttablecommand.js:57-59 | after insertion the new table sits at the insert position, and the selection is a valid position at the start of the first cell of its first row |

## Left out

- The table engine's own source (the table walker, the post-fixer, `TableUtils`) is not part of this model. Its behaviour is reconstructed from the tests' expected tables. The post-fixer only trims rowspans and pads rows. As those expected tables show, it never changes `headingRows`, never splits a cell and never removes rows.
- A rowspan or colspan of 1 and a missing attribute are the same value here (`Span` is at least 1).
- Undo, redo and collaborative operation transformation (`enqueueChange`, the `'after undo'` tables in tests/tableediting.js:660-676) are host history machinery. The scenarios apply the two sets of changes one after the other, each followed by the post-fixer. Replaying is deterministic because the repair is a function of the table.
- The root-becomes-paragraph outcome of removing the table (tests/tableediting.js:642-654) is host document behaviour.
- Caret and Tab navigation, command registration and data-pipeline tests are out of scope: they are UI or host wiring.
- The presentation markup of the view (figure and table wrappers, widget classes, `contenteditable`, span-to-p renaming), converter overriding, block content (tests/converters/downcast.js:131-148) and re-insertion into a wrapper (tests/converters/downcast.js:203-241) are rendering details. The view is modelled as sections of rows of heading or data cells with spans and contents.
- The incremental row-insert and row-remove converters' view quirks (tests/converters/downcast.js:437-487, 1123-1225) are converter-specific and not modelled.
- A row that the tests create empty and then fill with `insertElement` calls is inserted with its cells in one step.
- `createTable` and the schema's `checkChild` are foreign code. They are parameters of `Execute` and `Refresh`.
- InsertTable.CountOrDefault: `parseInt` is modelled on integers and strings (sign, leading white space, `0x` prefix, digits up to the first non-digit); floating-point and exponent option values are not modelled. `parseInt` returns a double, so JavaScript rounds a result beyond 2^53 to the nearest double (`"9007199254740993"` reads as 9007199254740992); the model keeps every result exact.
- InsertTable.InsertTableCommand.Execute: when the created table has no first row holding a first cell, the source throws inside its change block after the table was inserted; the model reports this as `ok == false` with the table inserted and the selection unchanged, and what the host does with the thrown error is not modelled.
- InsertTable.IntegerCount: integer options are modelled only below 10^21 in magnitude; JavaScript prints larger numbers in exponent form (`1e+21`), which `parseInt` reads as their leading digit, and `AsString` does not model that form.
- InsertTable.IntegerRoundTrip: holds only below 10^21 in magnitude, for the same reason; larger integer options are not modelled.
- The document for the insert-table command is a tree of elements and single text characters; only the paths and offsets matter to the command.
