/**
 The table routine (drawTable, drawTr). A measure pass fills a map from an
 index to the widest text seen under that index; a draw pass then places
 every row one line further down and every cell at the current x.

 As the routine is written, the measure pass keys the map by ROW index while
 the draw pass reads it by CELL index, and a key that is absent reads as 0.
 The definitions below keep both. Each row's move down goes through the
 backend's SetY, so every row starts at the left margin.
 */
module Table {
  import opened Tree
  import opened Layout

  /** A key that is absent from the map reads as 0. */
  function Lookup(t: map<int, real>, k: int): real
  {
    if k in t then t[k] else 0.0
  }

  /**
   The width the measure pass records for one row: 0 to begin with, raised to
   each cell's text width that exceeds it, in order.
   */
  function RowWidth(cells: seq<Node>, style: string, size: real, m: Metrics): (w: real)
    ensures w >= 0.0
    decreases |cells|
  {
    if cells == [] then 0.0
    else
      var w0 := RowWidth(cells[..|cells| - 1], style, size, m);
      var c := m.width(cells[|cells| - 1].text, style, size);
      if w0 < c then c else w0
  }

  /**
   A row's width is the widest of its cells' texts: no cell is wider, and it
   is the width of one of them (or 0 when every cell measures 0 or less, or
   the row has none).
   */
  lemma {:induction false} RowWidthIsMax(cells: seq<Node>, style: string, size: real, m: Metrics)
    ensures forall j :: 0 <= j < |cells| ==> m.width(cells[j].text, style, size) <= RowWidth(cells, style, size, m)
    ensures RowWidth(cells, style, size, m) == 0.0
         || exists j :: 0 <= j < |cells| && RowWidth(cells, style, size, m) == m.width(cells[j].text, style, size)
    decreases |cells|
  {
    if cells != [] {
      var k := |cells| - 1;
      var w0 := RowWidth(cells[..k], style, size, m);
      RowWidthIsMax(cells[..k], style, size, m);
      forall j | 0 <= j < k
        ensures cells[..k][j] == cells[j]
      {
      }
      if RowWidth(cells, style, size, m) != 0.0 && RowWidth(cells, style, size, m) == w0
         && w0 != m.width(cells[k].text, style, size)
      {
        var j :| 0 <= j < k && w0 == m.width(cells[..k][j].text, style, size);
        assert RowWidth(cells, style, size, m) == m.width(cells[j].text, style, size);
      }
    }
  }

  /** Entry `i` once row `i` has been measured up to width `w`: set only when positive. */
  function WithRow(t: map<int, real>, i: int, w: real): map<int, real>
  {
    if w > 0.0 then t[i := w] else t
  }

  /**
   The map the measure pass builds, keyed by ROW: row i has a key exactly
   when its width is positive, and then the key holds the row's width; every
   other index reads as 0.
   */
  function MeasuredWidths(rows: seq<Node>, style: string, size: real, m: Metrics): (t: map<int, real>)
    ensures forall i :: i in t ==> 0 <= i < |rows| && t[i] > 0.0
    ensures forall i :: 0 <= i < |rows| ==> Lookup(t, i) == RowWidth(rows[i].children, style, size, m)
    decreases |rows|
  {
    if rows == [] then map[]
    else
      var k := |rows| - 1;
      WithRow(MeasuredWidths(rows[..k], style, size, m), k, RowWidth(rows[k].children, style, size, m))
  }

  /**
   The measure pass of drawTable, as the nested loops run it: for each row i,
   for each of its cells, widen entry i when the cell's text is wider than
   what entry i reads.
   */
  method Measure(rows: seq<Node>, style: string, size: real, m: Metrics) returns (t: map<int, real>)
    ensures t == MeasuredWidths(rows, style, size, m)
  {
    t := map[];
    var i := 0;
    while i < |rows|
      invariant 0 <= i <= |rows|
      invariant t == MeasuredWidths(rows[..i], style, size, m)
    {
      t := MeasureRow(t, i, rows[i].children, style, size, m);
      assert rows[..i + 1][..i] == rows[..i];
      i := i + 1;
    }
    assert rows[..i] == rows;
  }

  /** The inner loop of the measure pass: widen entry `i`, not yet present, to each cell's width. */
  method MeasureRow(t0: map<int, real>, i: int, cells: seq<Node>, style: string, size: real, m: Metrics)
    returns (t: map<int, real>)
    requires i !in t0
    ensures t == WithRow(t0, i, RowWidth(cells, style, size, m))
  {
    t := t0;
    var j := 0;
    while j < |cells|
      invariant 0 <= j <= |cells|
      invariant t == WithRow(t0, i, RowWidth(cells[..j], style, size, m))
    {
      var stringSize := m.width(cells[j].text, style, size);
      assert cells[..j + 1][..j] == cells[..j];
      if Lookup(t, i) < stringSize {
        t := t[i := stringSize];
      }
      j := j + 1;
    }
    assert cells[..j] == cells;
  }

  /** The total x advance of cells a to b-1: each cell moves x by its entry plus 1. */
  function Offset(t: map<int, real>, a: int, b: int): real
    decreases b - a
  {
    if a >= b then 0.0 else Lookup(t, a) + 1.0 + Offset(t, a + 1, b)
  }

  /**
   The cell loop of drawTr from cell k on: draw the cell's text at the
   cursor, then move x by the entry for the cell's index plus 1.
   */
  function Cells(s: State, cells: seq<Node>, t: map<int, real>, k: nat): (r: State)
    requires k <= |cells|
    ensures r.y == s.y && r.size == s.size && r.style == s.style
    ensures r.newline == s.newline && r.lastMargin == s.lastMargin
    ensures Advances(s, r)
    decreases |cells| - k
  {
    if k == |cells| then s
    else
      Cells(s.(log := s.log + [Text(s.x, s.y, cells[k].text, s.style, s.size)],
               x := s.x + Lookup(t, k) + 1.0),
            cells, t, k + 1)
  }

  /** One turn of the cell loop: draw cell k at the cursor and move past it. */
  lemma CellsStep(s: State, cells: seq<Node>, t: map<int, real>, k: nat, s': State)
    requires k < |cells|
    requires s' == s.(log := s.log + [Text(s.x, s.y, cells[k].text, s.style, s.size)], x := s.x + Lookup(t, k) + 1.0)
    ensures Cells(s', cells, t, k + 1) == Cells(s, cells, t, k)
  {
  }

  /**
   Where the cell loop puts things: cell j (from k on) is drawn on the
   current line at the starting x plus the advances of the cells before it,
   and x ends past all of them.
   */
  lemma {:induction false} CellsPlacement(s: State, cells: seq<Node>, t: map<int, real>, k: nat)
    requires k <= |cells|
    ensures Cells(s, cells, t, k).x == s.x + Offset(t, k, |cells|)
    ensures |Cells(s, cells, t, k).log| == |s.log| + |cells| - k
    ensures forall j :: k <= j < |cells| ==>
      Cells(s, cells, t, k).log[|s.log| + j - k] == Text(s.x + Offset(t, k, j), s.y, cells[j].text, s.style, s.size)
    decreases |cells| - k
  {
    if k < |cells| {
      var first := Text(s.x, s.y, cells[k].text, s.style, s.size);
      var s' := s.(log := s.log + [first], x := s.x + Lookup(t, k) + 1.0);
      var r := Cells(s', cells, t, k + 1);
      assert Cells(s, cells, t, k) == r;
      CellsPlacement(s', cells, t, k + 1);
      assert r.log[..|s'.log|] == s'.log;
      forall j | k <= j < |cells|
        ensures r.log[|s.log| + j - k] == Text(s.x + Offset(t, k, j), s.y, cells[j].text, s.style, s.size)
      {
        if j == k {
          assert r.log[|s.log|] == s'.log[|s.log|] == first;
        } else {
          assert Offset(t, k, j) == Lookup(t, k) + 1.0 + Offset(t, k + 1, j);
          assert r.log[|s'.log| + j - (k + 1)]
              == Text(s'.x + Offset(t, k + 1, j), s.y, cells[j].text, s.style, s.size);
        }
      }
    }
  }

  /**
   drawTr: move down one line of the current font, which brings x back to the
   left margin, then run the cell loop on that line.
   */
  function DrawRow(s: State, row: Node, t: map<int, real>, m: Metrics): (r: State)
    requires Sane(m)
    ensures r.y == s.y + LineHeight(m, s.size)
    ensures r.x == m.leftMargin + Offset(t, 0, |row.children|)
    ensures r.size == s.size && r.style == s.style
    ensures r.newline == s.newline && r.lastMargin == s.lastMargin
    ensures |r.log| == |s.log| + |row.children| && r.log[..|s.log|] == s.log
    ensures s.size > 0.0 ==> Advances(s, r)
  {
    var down := SetY(s, s.y + LineHeight(m, s.size), m);
    CellsPlacement(down, row.children, t, 0);
    Cells(down, row.children, t, 0)
  }

  /** Cell j of a row: on the row's line, at the left margin plus the advances before it. */
  lemma RowCell(s: State, row: Node, t: map<int, real>, m: Metrics, j: nat)
    requires Sane(m) && j < |row.children|
    ensures |s.log| + j < |DrawRow(s, row, t, m).log|
    ensures DrawRow(s, row, t, m).log[|s.log| + j]
         == Text(m.leftMargin + Offset(t, 0, j), s.y + LineHeight(m, s.size), row.children[j].text, s.style, s.size)
  {
    var down := SetY(s, s.y + LineHeight(m, s.size), m);
    CellsPlacement(down, row.children, t, 0);
  }

  /** The row loop of drawTable from row i on. */
  function Rows(s: State, rows: seq<Node>, t: map<int, real>, i: nat, m: Metrics): (r: State)
    requires Sane(m) && i <= |rows|
    ensures r.size == s.size && r.style == s.style
    ensures r.newline == s.newline && r.lastMargin == s.lastMargin
    ensures |r.log| >= |s.log| && r.log[..|s.log|] == s.log
    ensures s.size > 0.0 ==> Advances(s, r)
    decreases |rows| - i
  {
    if i == |rows| then s
    else
      var d := DrawRow(s, rows[i], t, m);
      var r := Rows(d, rows, t, i + 1, m);
      assert r.log[..|s.log|] == r.log[..|d.log|][..|s.log|];
      if s.size > 0.0 then AdvancesTransitive(s, d, r); r else r
  }

  /** One turn of the row loop: draw row i, then the rest. */
  lemma RowsStep(s: State, rows: seq<Node>, t: map<int, real>, i: nat, m: Metrics, d: State)
    requires Sane(m) && i < |rows|
    requires d == DrawRow(s, rows[i], t, m)
    ensures Rows(d, rows, t, i + 1, m) == Rows(s, rows, t, i, m)
  {
  }

  /**
   drawTable: measure with the current font, draw every row, then move down
   one more line. The cells' own tags and children play no part.
   */
  function DrawTable(s: State, table: Node, m: Metrics): (r: State)
    requires Sane(m)
    ensures r.x == m.leftMargin
    ensures r.size == s.size && r.style == s.style
    ensures r.newline == s.newline && r.lastMargin == s.lastMargin
    ensures s.size > 0.0 ==> Advances(s, r)
  {
    var t := MeasuredWidths(table.children, s.style, s.size, m);
    var r := Rows(s, table.children, t, 0, m);
    SetY(r, r.y + LineHeight(m, r.size), m)
  }

  /** The height of `count` lines of height `h`. */
  function Lines(count: nat, h: real): real
  {
    if count == 0 then 0.0 else Lines(count - 1, h) + h
  }

  /** One more line adds one line height. */
  lemma LinesStep(count: nat, h: real)
    ensures Lines(count + 1, h) == Lines(count, h) + h
  {
  }

  /** Taking the first of several lines off the front leaves one line fewer. */
  lemma {:induction false} LinesAfterFirst(count: nat, h: real)
    requires count > 0
    ensures Lines(count, h) == h + Lines(count - 1, h)
  {
    if count > 1 {
      LinesAfterFirst(count - 1, h);
    }
  }

  lemma {:induction false} LinesIsProduct(count: nat, h: real)
    ensures Lines(count, h) == count as real * h
  {
    if count > 0 {
      LinesIsProduct(count - 1, h);
    }
  }

  /** Each row moves the cursor down one line, so the row loop moves it down one line per row. */
  lemma {:induction false} RowsHeight(s: State, rows: seq<Node>, t: map<int, real>, i: nat, m: Metrics)
    requires Sane(m) && i <= |rows|
    ensures Rows(s, rows, t, i, m).y == s.y + Lines(|rows| - i, LineHeight(m, s.size))
    decreases |rows| - i
  {
    if i < |rows| {
      RowsHeight(DrawRow(s, rows[i], t, m), rows, t, i + 1, m);
    }
  }

  /** A table occupies one line per row plus one line below it. */
  lemma TableHeight(s: State, table: Node, m: Metrics)
    requires Sane(m)
    ensures DrawTable(s, table, m).y == s.y + Lines(|table.children| + 1, LineHeight(m, s.size))
  {
    RowsHeight(s, table.children, MeasuredWidths(table.children, s.style, s.size, m), 0, m);
  }

  /** The number of cells in rows a to b-1. */
  function CellCount(rows: seq<Node>, a: int, b: int): nat
    requires 0 <= a && b <= |rows|
    decreases b - a
  {
    if a >= b then 0 else |rows[a].children| + CellCount(rows, a + 1, b)
  }

  /** The row loop keeps what the first of its rows drew. */
  lemma FirstRowKept(s: State, rows: seq<Node>, t: map<int, real>, k: nat, m: Metrics, j: nat)
    requires Sane(m) && k < |rows| && j < |rows[k].children|
    ensures |s.log| + j < |Rows(s, rows, t, k, m).log|
    ensures Rows(s, rows, t, k, m).log[|s.log| + j] == DrawRow(s, rows[k], t, m).log[|s.log| + j]
  {
    var d := DrawRow(s, rows[k], t, m);
    var r := Rows(d, rows, t, k + 1, m);
    assert Rows(s, rows, t, k, m) == r;
    assert r.log[..|d.log|] == d.log;
    assert r.log[|s.log| + j] == r.log[..|d.log|][|s.log| + j];
  }

  /**
   The state in which the row loop (started at row k) enters row i: one line
   further down per row drawn, and one draw more per cell drawn.
   */
  function RowsUpTo(s: State, rows: seq<Node>, t: map<int, real>, k: nat, i: nat, m: Metrics): (r: State)
    requires Sane(m) && k <= i <= |rows|
    ensures r.size == s.size && r.style == s.style
    ensures r.y == s.y + Lines(i - k, LineHeight(m, s.size))
    ensures |r.log| == |s.log| + CellCount(rows, k, i)
    decreases i - k
  {
    if k == i then s
    else
      var d := DrawRow(s, rows[k], t, m);
      var r := RowsUpTo(d, rows, t, k + 1, i, m);
      LinesAfterFirst(i - k, LineHeight(m, s.size));
      r
  }

  /** The row loop resumes at row i from the state RowsUpTo gives. */
  lemma {:induction false} RowsResume(s: State, rows: seq<Node>, t: map<int, real>, k: nat, i: nat, m: Metrics)
    requires Sane(m) && k <= i <= |rows|
    ensures Rows(RowsUpTo(s, rows, t, k, i, m), rows, t, i, m) == Rows(s, rows, t, k, m)
    decreases i - k
  {
    if k < i {
      RowsResume(DrawRow(s, rows[k], t, m), rows, t, k + 1, i, m);
    }
  }

  /** One line below a cursor that is L below the start is L + h below it. */
  lemma OneLineMore(y: real, start: real, below: real, below': real, h: real)
    requires y == start + below && below' == below + h
    ensures y + h == start + below'
  {
  }

  /** What row i draws is kept by the whole row loop. */
  lemma EnteredRowKept(s: State, rows: seq<Node>, t: map<int, real>, k: nat, i: nat, m: Metrics, j: nat, e: State)
    requires Sane(m) && k <= i < |rows| && j < |rows[i].children|
    requires e == RowsUpTo(s, rows, t, k, i, m)
    ensures |e.log| + j < |Rows(s, rows, t, k, m).log|
    ensures Rows(s, rows, t, k, m).log[|e.log| + j]
         == Text(m.leftMargin + Offset(t, 0, j), e.y + LineHeight(m, e.size), rows[i].children[j].text, e.style, e.size)
  {
    RowsResume(s, rows, t, k, i, m);
    FirstRowKept(e, rows, t, i, m, j);
    RowCell(e, rows[i], t, m, j);
  }

  /**
   Where the row loop draws cell j of row i: right after the draws of the
   rows before it (|s.log| + CellCount(rows, 0, i) of them, by RowsUpTo), on
   the (i + 1)-th line below the start, at the left margin plus the advances
   of the cells before it in its row. So every row starts at the left margin
   and the cells of one row share a line.
   */
  lemma RowsPlacement(s: State, rows: seq<Node>, t: map<int, real>, m: Metrics, i: nat, j: nat)
    requires Sane(m) && i < |rows| && j < |rows[i].children|
    ensures |RowsUpTo(s, rows, t, 0, i, m).log| + j < |Rows(s, rows, t, 0, m).log|
    ensures Rows(s, rows, t, 0, m).log[|RowsUpTo(s, rows, t, 0, i, m).log| + j]
         == Text(m.leftMargin + Offset(t, 0, j), s.y + Lines(i + 1, LineHeight(m, s.size)),
                 rows[i].children[j].text, s.style, s.size)
  {
    var h := LineHeight(m, s.size);
    var e := RowsUpTo(s, rows, t, 0, i, m);
    EnteredRowKept(s, rows, t, 0, i, m, j, e);
    assert LineHeight(m, e.size) == h;
    LinesStep(i, h);
    OneLineMore(e.y, s.y, Lines(i, h), Lines(i + 1, h), h);
  }

  /**
   Where a table's cells land, with t the width map the measure pass builds:
   cell j of row i is drawn right after the draws of the rows before it,
   i + 1 lines below the table's start, at the left margin plus the advances
   of the cells before it in its row.
   */
  lemma TablePlacement(s: State, table: Node, m: Metrics, t: map<int, real>, i: nat, j: nat)
    requires Sane(m) && i < |table.children| && j < |table.children[i].children|
    requires t == MeasuredWidths(table.children, s.style, s.size, m)
    ensures |RowsUpTo(s, table.children, t, 0, i, m).log| + j < |DrawTable(s, table, m).log|
    ensures DrawTable(s, table, m).log[|RowsUpTo(s, table.children, t, 0, i, m).log| + j]
         == Text(m.leftMargin + Offset(t, 0, j), s.y + Lines(i + 1, LineHeight(m, s.size)),
                 table.children[i].children[j].text, s.style, s.size)
  {
    RowsPlacement(s, table.children, t, m, i, j);
    assert DrawTable(s, table, m).log == Rows(s, table.children, t, 0, m).log;
  }
}
