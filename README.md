# htmlPDF renderer, modelled in Dafny

This project models the document renderer of htmlPDF (`node.go`). An element
tree is built node by node with `Start`, `AddText` and `Stop`. One recursive
pass then turns it into positioned text draws on a PDF page. On the way the
pass keeps a little layout state: the page cursor (x, y), the active font size
and style, the global `newline` flag and the global `lastMargin`.

Modules, one per part of the renderer:

- `Tree` (tree.dfy): the element `Node` as an immutable value, and the
  `Builder` class. The builder keeps the open nodes on a stack, with the current
  node last and its parent just before it.
- `Layout` (layout.dfy): the layout `State`, the two measures asked of the page
  backend (`Metrics`, together with the page's left margin), the draw log and its top-to-bottom order, the font reset,
  and `setNewLine` (`NewLine`).
- `Heading` (heading.dfy): `drawHX`, meaning the size table, the collapsed top
  margin and the fixed bottom margin.
- `Table` (table.dfy): `drawTable` and `drawTr`. This covers the measure pass
  (the `Measure` method over its nested loops) and the draw pass.
- `Render` (render.dfy): the dispatcher (`(*Node).pdf`) as the functions
  `RenderNode` and `RenderKids`, and the lemmas about a whole pass. It also
  holds the class `Renderer`. Its fields are the page cursor, the font and the
  two globals. Its methods run the pass step by step, and each method is proved
  to end in the state that the matching function gives.

The pure functions in `Layout`, `Heading`, `Table` and `Render` are the
specifications the `Renderer` methods are proved against. The properties the
renderer promises are proved about those functions, as their contracts and as
lemmas.

In several places the code does not do what a reader might expect; the model
follows the code:

- The measure pass keys its map by row index, while the draw pass reads it by
  cell index. So a cell's x advance is the width of the row with that index. It
  is not the width of the cell's column (`Table.MeasuredWidths`, `Table.Cells`).
- Rows do not line up under the table's starting x. Every vertical move goes
  through the backend's `SetY`, which puts x back at the page's left margin,
  so every row, heading and block starts at the left margin
  (`Table.TablePlacement`, `Heading.DrawHeading`, `Layout.NewLine`).
- Headings still recurse into their children (`Render.RenderNode`).
- Bold does not carry into a `b` node's children, because every node resets the
  font first (`Render.FontNotInherited`).
- `lastMargin` is never reset by other blocks (`Render.LastMarginSticky`).

## Model

| member | source | states |
|---|---|---|
| Tree.Attach | node.go:28 | the parent keeps its name, text and earlier children in order, and gains the child as its last child |
| Tree.Builder.constructor | node.go:8-13 | a builder starts with a single open root node that has no text and no children |
| Tree.Builder.Start | node.go:15-21 | a new node with the given name, empty text and no children becomes current; its parent is the previous current node, and every open node, including the parent's child list, is unchanged |
| Tree.Builder.AddText | node.go:23-25 | the current node's text is replaced by the new text, not appended to; its name, its children and every other open node are unchanged |
| Tree.Builder.Stop | node.go:27-30 | needs a parent; appends the current node as the parent's last child, keeps the earlier children, returns the parent as the new current node, and leaves the eventual finished tree unchanged |
| Layout.LineHeight | node.go:71-73 | the line height of a positive font size is positive |
| Layout.ResetFont | node.go:80 | sets size 12 and style "" and changes nothing else |
| Layout.NewLine | node.go:69-76 | with no break pending, y grows by one line of the current font, x goes back to the left margin and a break becomes pending; with one pending, nothing changes; font, lastMargin and log are never touched; the cursor never moves up |
| Layout.NewLineIdempotent | node.go:69-76 | two block advances in a row move the cursor only once |
| Layout.OrderedPairs | node.go:78-102 | in an ordered state, every draw is at or above every later draw and at or above the cursor |
| Heading.HeadingSize | node.go:113-122 | a heading's size lies between 12 and 18, and it is 12 exactly for h4, h5 and h6 |
| Heading.HeadingSizesDescend | node.go:113-122 | h1 > h2 > h3 > h4 = h5 = h6 in size |
| Heading.MarginTop | node.go:123-127 | the top margin is never negative; together with a previous bottom margin below 6 it makes 6; it is 0 when the previous bottom margin is 6 or more |
| Heading.DrawHeading | node.go:106-138 | the text is drawn at the left margin, at y0 + LineHeight(size) + top margin, in the level's size and the current style; the final y is the draw's y + 6 and x is the left margin; lastMargin becomes 6; style and newline are unchanged; exactly one draw is appended; the cursor moves down |
| Heading.NextHeadingCollapses | node.go:137 | after a heading, the next heading's top margin is 0 |
| Table.RowWidth | node.go:144-149 | the width recorded for a row is never negative |
| Table.RowWidthIsMax | node.go:141-150 | a row's recorded width is at least every cell's text width, and it is 0 or one of those widths |
| Table.MeasuredWidths | node.go:141-150 | the map has a key only for row indices, and only where the width is positive; reading index i for a row gives that row's width; any other index reads 0 |
| Table.Measure | node.go:141-150 | the nested loops build exactly the row-keyed map `MeasuredWidths` |
| Table.MeasureRow | node.go:144-149 | the inner loop, on a row index not yet in the map, sets that entry to the row's width when it is positive and leaves the map alone otherwise |
| Table.Cells | node.go:165-169 | the cell loop leaves y, font and both flags alone, only appends to the log, and keeps it ordered |
| Table.CellsPlacement | node.go:165-169 | cell j is drawn on the current line at the starting x plus, for each earlier cell k, the map's entry for k plus 1; x ends past all cells |
| Table.DrawRow | node.go:160-170 | a row moves y down exactly one line of the current font before its cells, appends exactly one draw per cell after the earlier log, ends with x at the left margin plus every cell's advance, and leaves font and flags alone |
| Table.RowCell | node.go:160-169 | cell j of a row is drawn one line of the current font below the row's starting y, at the left margin plus the advances of cells 0 to j-1, with its own text in the current font |
| Table.Rows | node.go:152-154 | the row loop leaves font and flags alone, only appends to the log, keeps it ordered and never moves up |
| Table.RowsHeight | node.go:161-163 | the row loop moves y down one line per row |
| Table.DrawTable | node.go:140-158 | the table ends with x at the left margin; it leaves the font, `newline` and `lastMargin` as they were, only appends to the log and keeps it ordered |
| Table.TableHeight | node.go:152-157 | a table moves y down one line per row, plus one line after the last row |
| Table.RowsUpTo | node.go:152-154 | the row loop enters row i one line of the current font further down per earlier row, with one more draw per earlier cell, in the same font |
| Table.RowsPlacement | node.go:152-169 | cell j of row i is drawn right after the draws of the rows before it, i + 1 lines below the start, at the left margin plus the advances of the cells before it in its row |
| Table.TablePlacement | node.go:140-169 | the same for a whole table, with the map the measure pass builds: every row starts at the left margin and row i's cells share the line i + 1 lines below the table's start |
| Render.Emphasis | node.go:86-91 | `b` draws its text in bold 12 at the cursor, leaves y alone, moves x by the bold width plus 1, and clears `newline` |
| Render.Dispatch | node.go:81-96 | a tag without a rule changes nothing; every rule only moves the cursor down and appends to the log in order |
| Render.RenderNode | node.go:78-102 | one node's pass never moves the cursor up; it only appends to the draw log, and keeps it top-to-bottom |
| Render.RenderKids | node.go:97-101 | visiting the children left to right never moves the cursor up, and only appends to the log, in order |
| Render.RenderDocument | node.go:55-65 | a document pass starts at (0, 0); its final y is not negative; it keeps the earlier log as a prefix; from an empty log, the log it draws is top-to-bottom |
| Render.PlainSubtreeIsTransparent | node.go:78-102 | a subtree of tags without rules leaves the cursor, both flags and the log unchanged, and only resets the font |
| Render.PlainKidsAreTransparent | node.go:97-101 | children made only of tags without rules leave a font-reset state unchanged |
| Render.LastMarginSticky | node.go:104-137 | after a pass, lastMargin is 6 if the pass reached a heading and is unchanged otherwise; it is never reset |
| Render.KidsLastMarginSticky | node.go:97-101 | the same for a run of children |
| Render.OnlyBoldClearsNewline | node.go:91 | a pass that starts with a pending break and reaches no `b` node ends with one pending |
| Render.KidsKeepNewline | node.go:97-101 | the same for a run of children |
| Render.BoldLeaf | node.go:86-91 | a childless `b` draws its text in bold at (x, y), leaves y and lastMargin alone, moves x by exactly Width(text, "B", 12) + 1, and clears `newline` |
| Render.FontNotInherited | node.go:80 | a node's pass never depends on the font it was entered with, so bold does not carry into children |
| Render.TableBlock | node.go:92-95 | a table leaves a break pending and lastMargin unchanged, whatever tags its cells have; it moves y down one line if no break was pending, one line per row, and one more line |
| Render.AdjacentHeadingsCollapse | node.go:123-137 | the second of two adjacent headings is drawn exactly one line of its own size below where the first left the cursor |
| Render.HeadingLeaf | node.go:78-85 | a childless heading's pass is the font reset followed by the heading rule |
| Render.DocumentTopToBottom | node.go:55-65 | in the draw log of a whole document every text is at or above every later text and at or above the final cursor |
| Render.Renderer.constructor | node.go:50-67 | a run starts with the cursor at the origin, the page font, no pending break, lastMargin 0 and an empty log |
| Render.Renderer.SetNewLine | node.go:69-76 | ends in the state `NewLine` gives |
| Render.Renderer.DrawHX | node.go:106-138 | ends in the state `DrawHeading` gives |
| Render.Renderer.DrawTr | node.go:160-170 | its loop ends in the state `DrawRow` gives |
| Render.Renderer.DrawTable | node.go:140-158 | measures, then draws each row, then ends in the state `Table.DrawTable` gives |
| Render.Renderer.DrawBold | node.go:86-91 | ends in the state `Emphasis` gives |
| Render.Renderer.ApplyRule | node.go:79-96 | applies the rule for the node's tag and ends in the state `Dispatch` gives; it asks for the children to be visited exactly when the tag is not `table` |
| Render.Renderer.Render | node.go:78-102 | resets the font, applies the tag's rule, visits the children in order (not for tables), and ends in the state `RenderNode` gives |
| Render.Renderer.PrintSelf | node.go:55-65 | sets bold 16 and the cursor to (0, 0), renders the root, and ends in the state `RenderDocument` gives |

## Left out

- main.go is not part of this model. It covers file reading, HTML and CSS parsing, the style and layout trees, the display list, and writing the PDF file.
- `(*Node).Print` (node.go:32-48) is left out. It only writes to the console.
- The debug prints (node.go:59, 61, 151), `AddPage`, the font family strings and the unused `pageFontColor` are left out. They have no effect on the layout.
- gofpdf is not part of this model. Glyph drawing and page creation are left out. Text placement is recorded as an entry in a draw log. The cursor is modelled only through the getters and setters the renderer calls. `SetY` sets y and puts x back at the page's left margin, which is a value of the backend (`Metrics.leftMargin`, not fixed here). `SetXY(0, 0)` leaves the cursor at (0, 0).
- Negative arguments to `SetX` and `SetY`, which gofpdf measures from the right and bottom page edges, are not modelled; the renderer only passes them when a width or line height is negative.
- Layout.LineHeight: states only that a positive font size has a positive line height. The backend derives it from the point size and the unit scale; that formula is in gofpdf, which is not part of this model.
- String widths come from the backend as an uninterpreted function of text, style and size. Nothing is assumed about them. In particular, nothing in the model needs them to be non-negative.
- Coordinates and sizes are `real`. IEEE `float64` rounding is not modelled.
- Tree.Builder: the model uses a stack of open nodes in place of parent pointers. So these are not modelled: `Start` on a node other than the current one, `Stop` called twice on one node, and a change to a node after it has been attached (which Go's shared pointers would make visible in the parent). The parser that drives the builder is not part of this model.
- Tree.Builder.Stop: requires a parent. The source dereferences a nil parent pointer for the root and panics, so that call is excluded rather than modelled.
