/**
 The layout state one render pass threads through the tree, the two measures
 the renderer asks of the page backend, and the block advance (setNewLine).
 */
module Layout {

  /** The page defaults every node starts from (the family is not modelled). */
  const PageFontSize: real := 12.0
  const PageFontStyle: string := ""
  /** The style tag the renderer passes for bold text. */
  const Bold: string := "B"

  /**
   What the page backend measures, in user units: the height of one line of
   a font of the given size (the renderer takes the font size in user units,
   which the backend derives from the point size), the width of a string in
   a given style and size, and the page's left margin, where the backend puts
   x back whenever y is set.
   */
  datatype Metrics = Metrics(
    lineHeight: real -> real,
    width: (string, string, real) -> real,
    leftMargin: real)

  /** A real font of positive size is positively tall. */
  ghost predicate Sane(m: Metrics)
  {
    forall size :: size > 0.0 ==> m.lineHeight(size) > 0.0
  }

  /** The height one line of the current font occupies. */
  function LineHeight(m: Metrics, size: real): (h: real)
    requires Sane(m)
    ensures size > 0.0 ==> h > 0.0
  {
    m.lineHeight(size)
  }

  /** One text placement: origin, text, and the font it was drawn in. */
  datatype Draw = Text(x: real, y: real, text: string, style: string, size: real)

  /**
   The renderer's state: the backend's cursor and active font, the globals
   `newline` and `lastMargin`, and everything drawn so far.
   */
  datatype State = State(
    x: real,
    y: real,
    size: real,
    style: string,
    newline: bool,
    lastMargin: real,
    log: seq<Draw>)

  /** The state at the start of a program run: cursor at the origin, globals zero. */
  const Initial: State := State(0.0, 0.0, PageFontSize, PageFontStyle, false, 0.0, [])

  /**
   A draw log in top-to-bottom order, none of it below `y`: the last
   placement is at or above `y`, and the ones before it are in order and at
   or above it.
   */
  predicate SortedBelow(log: seq<Draw>, y: real)
    decreases |log|
  {
    |log| == 0 || (log[|log| - 1].y <= y && SortedBelow(log[..|log| - 1], log[|log| - 1].y))
  }

  /** The state's draw log is in top-to-bottom order and none of it is below the cursor. */
  predicate Ordered(s: State)
  {
    SortedBelow(s.log, s.y)
  }

  /** What Ordered means for any two placements, and for the cursor. */
  lemma {:induction false} OrderedPairs(log: seq<Draw>, y: real)
    requires SortedBelow(log, y)
    ensures forall i, j :: 0 <= i < j < |log| ==> log[i].y <= log[j].y
    ensures forall i :: 0 <= i < |log| ==> log[i].y <= y
    decreases |log|
  {
    if |log| > 0 {
      var k := |log| - 1;
      OrderedPairs(log[..k], log[k].y);
    }
  }

  /** Moving the cursor down keeps the log ordered. */
  lemma SortedBelowLower(log: seq<Draw>, y: real, y': real)
    requires SortedBelow(log, y) && y <= y'
    ensures SortedBelow(log, y')
  {
  }

  /** Drawing at the cursor keeps the log ordered. */
  lemma DrawAtCursor(log: seq<Draw>, y: real, d: Draw)
    requires SortedBelow(log, y) && d.y == y
    ensures SortedBelow(log + [d], y)
  {
    assert (log + [d])[..|log|] == log;
  }

  /** `r` was reached from `s` by drawing more and moving down, never up. */
  ghost predicate Advances(s: State, r: State)
  {
    && r.y >= s.y
    && |r.log| >= |s.log|
    && r.log[..|s.log|] == s.log
    && (Ordered(s) ==> Ordered(r))
  }

  lemma {:induction false} AdvancesTransitive(s: State, r: State, u: State)
    requires Advances(s, r) && Advances(r, u)
    ensures Advances(s, u)
  {
    assert u.log[..|s.log|] == u.log[..|r.log|][..|s.log|];
  }

  /** Every node first sets the font back to the page defaults. */
  function ResetFont(s: State): (r: State)
    ensures r.size == PageFontSize && r.style == PageFontStyle
    ensures r.(size := s.size, style := s.style) == s
  {
    s.(size := PageFontSize, style := PageFontStyle)
  }

  /**
   Setting y on the backend: the cursor goes to the new y and x goes back to
   the left margin.
   */
  function SetY(s: State, y: real, m: Metrics): (r: State)
    ensures r.y == y && r.x == m.leftMargin
    ensures r.(x := s.x, y := s.y) == s
  {
    s.(x := m.leftMargin, y := y)
  }

  /**
   setNewLine: unless a line break is already pending, move down one line of
   the current font, which brings x back to the left margin, and mark a break
   as pending.
   */
  function NewLine(s: State, m: Metrics): (r: State)
    requires Sane(m)
    ensures r.newline
    ensures r.size == s.size && r.style == s.style
    ensures r.lastMargin == s.lastMargin && r.log == s.log
    ensures !s.newline ==> r.y == s.y + LineHeight(m, s.size) && r.x == m.leftMargin
    ensures s.newline ==> r == s
    ensures s.size > 0.0 ==> Advances(s, r)
  {
    if !s.newline then SetY(s, s.y + LineHeight(m, s.size), m).(newline := true)
    else s
  }

  /** Two block advances in a row move the cursor only once. */
  lemma NewLineIdempotent(s: State, m: Metrics)
    requires Sane(m)
    ensures NewLine(NewLine(s, m), m) == NewLine(s, m)
  {
  }
}
