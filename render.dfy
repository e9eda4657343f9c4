/**
 The dispatcher: one depth-first, left-to-right pass over the element tree.
 Every node first resets the font to the page defaults, then applies the
 rule for its tag, then (unless it is a table) visits its children in order.

 RenderNode and RenderKids say what one pass does to the layout state; the
 class Renderer performs it step by step on its own fields, as the source
 does on the page object and its globals, and each of its methods is proved
 to end in the state the matching function describes.
 */
module Render {
  import opened Tree
  import opened Layout
  import opened Heading
  import opened Table

  /** The tags the dispatcher has a rule for; every other tag is only recursed into. */
  predicate Recognized(name: string)
  {
    name == "div" || IsHeading(name) || name == "b" || name == "table"
  }

  /**
   The rule for `b`: switch to bold, draw the text at the cursor, move x past
   it plus 1, and clear the pending line break.
   */
  function Emphasis(s: State, text: string, m: Metrics): (r: State)
    ensures r.y == s.y && r.lastMargin == s.lastMargin && !r.newline
    ensures r.style == Bold && r.size == PageFontSize
    ensures r.x == s.x + m.width(text, Bold, PageFontSize) + 1.0
    ensures r.log == s.log + [Text(s.x, s.y, text, Bold, PageFontSize)]
    ensures Advances(s, r)
  {
    var b := s.(style := Bold, size := PageFontSize);
    b.(log := b.log + [Text(b.x, b.y, text, b.style, b.size)],
       x := b.x + m.width(text, b.style, b.size) + 1.0,
       newline := false)
  }

  /** The switch of the dispatcher, applied after the font reset. */
  function Dispatch(s: State, n: Node, m: Metrics): (r: State)
    requires Sane(m) && s.size > 0.0
    ensures Advances(s, r)
    ensures !Recognized(n.name) ==> r == s
  {
    if n.name == "div" then NewLine(s, m)
    else if IsHeading(n.name) then DrawHeading(s, n.name, n.text, m)
    else if n.name == "b" then Emphasis(s, n.text, m)
    else if n.name == "table" then DrawTable(NewLine(s, m), n, m)
    else s
  }

  /**
   One node: reset the font, apply the rule for the tag, then visit the
   children unless the node is a table. The cursor never moves up and the
   draw log only grows, in top-to-bottom order.
   */
  function RenderNode(s: State, n: Node, m: Metrics): (r: State)
    requires Sane(m)
    ensures Advances(s, r)
    decreases n, 1, 0
  {
    var s1 := Dispatch(ResetFont(s), n, m);
    if n.name == "table" then s1 else RenderKids(s1, n, 0, m)
  }

  /** The children of `n` from index i on, left to right. */
  function RenderKids(s: State, n: Node, i: nat, m: Metrics): (r: State)
    requires Sane(m) && i <= |n.children|
    ensures Advances(s, r)
    decreases n, 0, |n.children| - i
  {
    if i == |n.children| then s
    else RenderKids(RenderNode(s, n.children[i], m), n, i + 1, m)
  }

  /** PrintSelf: bold 16-point font, cursor at the origin, then one pass over the root. */
  function RenderDocument(s: State, root: Node, m: Metrics): (r: State)
    requires Sane(m)
    ensures r.y >= 0.0
    ensures |r.log| >= |s.log| && r.log[..|s.log|] == s.log
    ensures s.log == [] ==> Ordered(r)
  {
    RenderNode(s.(size := 16.0, style := Bold, x := 0.0, y := 0.0), root, m)
  }

  /** A subtree in which no tag has a rule. */
  predicate Plain(n: Node)
  {
    !Recognized(n.name) && forall j :: 0 <= j < |n.children| ==> Plain(n.children[j])
  }

  /**
   Unrecognised tags are transparent: a subtree made only of them leaves the
   cursor, the flags and the draw log as they were, and only resets the font.
   */
  lemma {:induction false} PlainSubtreeIsTransparent(s: State, n: Node, m: Metrics)
    requires Sane(m) && Plain(n)
    ensures RenderNode(s, n, m) == ResetFont(s)
    decreases n, 1, 0
  {
    PlainKidsAreTransparent(ResetFont(s), n, 0, m);
  }

  lemma {:induction false} PlainKidsAreTransparent(s: State, n: Node, i: nat, m: Metrics)
    requires Sane(m) && i <= |n.children| && s == ResetFont(s)
    requires forall j :: i <= j < |n.children| ==> Plain(n.children[j])
    ensures RenderKids(s, n, i, m) == s
    decreases n, 0, |n.children| - i
  {
    if i < |n.children| {
      PlainSubtreeIsTransparent(s, n.children[i], m);
      PlainKidsAreTransparent(s, n, i + 1, m);
    }
  }

  /**
   Whether the pass reaches a node whose tag is in `tags`: the node itself,
   or any descendant found by the generic recursion, which does not enter
   tables.
   */
  predicate Reaches(n: Node, tags: set<string>)
  {
    n.name in tags || (n.name != "table" && exists j :: 0 <= j < |n.children| && Reaches(n.children[j], tags))
  }

  predicate KidsReach(n: Node, i: nat, tags: set<string>)
  {
    exists j :: i <= j < |n.children| && Reaches(n.children[j], tags)
  }

  /**
   lastMargin is never reset: after a pass it is the heading bottom margin
   if the pass reached a heading, and otherwise what it was before.
   */
  lemma {:induction false} LastMarginSticky(s: State, n: Node, m: Metrics)
    requires Sane(m)
    ensures RenderNode(s, n, m).lastMargin
         == if Reaches(n, HeadingTags) then MarginBottom else s.lastMargin
    decreases n, 1, 0
  {
    var s1 := Dispatch(ResetFont(s), n, m);
    if n.name != "table" {
      KidsLastMarginSticky(s1, n, 0, m);
      if IsHeading(n.name) {
        assert Reaches(n, HeadingTags);
      } else if KidsReach(n, 0, HeadingTags) {
        var j :| 0 <= j < |n.children| && Reaches(n.children[j], HeadingTags);
        assert Reaches(n, HeadingTags);
      }
    }
  }

  lemma {:induction false} KidsLastMarginSticky(s: State, n: Node, i: nat, m: Metrics)
    requires Sane(m) && i <= |n.children|
    ensures RenderKids(s, n, i, m).lastMargin
         == if KidsReach(n, i, HeadingTags) then MarginBottom else s.lastMargin
    decreases n, 0, |n.children| - i
  {
    if i < |n.children| {
      var c := n.children[i];
      LastMarginSticky(s, c, m);
      KidsLastMarginSticky(RenderNode(s, c, m), n, i + 1, m);
      if KidsReach(n, i + 1, HeadingTags) {
        var j :| i + 1 <= j < |n.children| && Reaches(n.children[j], HeadingTags);
        assert KidsReach(n, i, HeadingTags);
      }
      if KidsReach(n, i, HeadingTags) && !Reaches(c, HeadingTags) {
        var j :| i <= j < |n.children| && Reaches(n.children[j], HeadingTags);
        assert j != i;
        assert KidsReach(n, i + 1, HeadingTags);
      }
    }
  }

  /**
   Only `b` clears the pending line break: a pass that starts with one
   pending and reaches no `b` node ends with one pending.
   */
  lemma {:induction false} OnlyBoldClearsNewline(s: State, n: Node, m: Metrics)
    requires Sane(m) && s.newline && !Reaches(n, {"b"})
    ensures RenderNode(s, n, m).newline
    decreases n, 1, 0
  {
    if n.name != "table" {
      var s1 := Dispatch(ResetFont(s), n, m);
      forall j | 0 <= j < |n.children|
        ensures !Reaches(n.children[j], {"b"})
      {
      }
      KidsKeepNewline(s1, n, 0, m);
    }
  }

  lemma {:induction false} KidsKeepNewline(s: State, n: Node, i: nat, m: Metrics)
    requires Sane(m) && i <= |n.children| && s.newline
    requires forall j :: i <= j < |n.children| ==> !Reaches(n.children[j], {"b"})
    ensures RenderKids(s, n, i, m).newline
    decreases n, 0, |n.children| - i
  {
    if i < |n.children| {
      OnlyBoldClearsNewline(s, n.children[i], m);
      KidsKeepNewline(RenderNode(s, n.children[i], m), n, i + 1, m);
    }
  }

  /**
   A `b` node without children draws its text in bold at the cursor, leaves
   y alone, moves x by the text's bold width plus 1 and clears the pending
   line break.
   */
  lemma BoldLeaf(s: State, n: Node, m: Metrics)
    requires Sane(m) && n.name == "b" && n.children == []
    ensures RenderNode(s, n, m).y == s.y
    ensures RenderNode(s, n, m).x == s.x + m.width(n.text, Bold, PageFontSize) + 1.0
    ensures RenderNode(s, n, m).log == s.log + [Text(s.x, s.y, n.text, Bold, PageFontSize)]
    ensures !RenderNode(s, n, m).newline
    ensures RenderNode(s, n, m).lastMargin == s.lastMargin
  {
  }

  /**
   Bold does not carry into children: what a node does never depends on the
   font it was entered with, so the children of `b` render exactly as they
   would anywhere else at the same cursor.
   */
  lemma FontNotInherited(s: State, n: Node, size: real, style: string, m: Metrics)
    requires Sane(m)
    ensures RenderNode(s.(size := size, style := style), n, m) == RenderNode(s, n, m)
  {
  }

  /**
   A table starts a new line, then moves down one line per row and one more;
   it never reaches the heading or bold rules, whatever its cells contain.
   */
  lemma {:induction false} TableBlock(s: State, n: Node, m: Metrics)
    requires Sane(m) && n.name == "table"
    ensures RenderNode(s, n, m).newline
    ensures RenderNode(s, n, m).lastMargin == s.lastMargin
    ensures RenderNode(s, n, m).y
         == s.y + (if s.newline then 0.0 else LineHeight(m, PageFontSize))
                + Lines(|n.children| + 1, LineHeight(m, PageFontSize))
  {
    var down := NewLine(ResetFont(s), m);
    var h := LineHeight(m, PageFontSize);
    assert down.size == PageFontSize;
    assert down.y == s.y + (if s.newline then 0.0 else h);
    var r := DrawTable(down, n, m);
    TableHeight(down, n, m);
    assert !IsHeading(n.name) && n.name != "div" && n.name != "b";
    assert Dispatch(ResetFont(s), n, m) == r;
    assert RenderNode(s, n, m) == r;
  }

  /** A heading without children is the heading rule after the font reset. */
  lemma HeadingLeaf(s: State, n: Node, m: Metrics)
    requires Sane(m) && IsHeading(n.name) && n.children == []
    ensures RenderNode(s, n, m) == DrawHeading(ResetFont(s), n.name, n.text, m)
  {
    assert n.name != "div" && n.name != "table";
    var d := DrawHeading(ResetFont(s), n.name, n.text, m);
    assert Dispatch(ResetFont(s), n, m) == d;
    assert RenderKids(d, n, 0, m) == d;
  }

  /**
   Two headings in a row: the second gets no top margin, so its text sits one
   line of its own size below where the first one left the cursor.
   */
  lemma AdjacentHeadingsCollapse(s: State, h1: Node, h2: Node, m: Metrics)
    requires Sane(m) && IsHeading(h1.name) && IsHeading(h2.name)
    requires h1.children == [] && h2.children == []
    ensures var r1 := RenderNode(s, h1, m);
            var r2 := RenderNode(r1, h2, m);
            |r2.log| == |r1.log| + 1 &&
            r2.log[|r1.log|].y == r1.y + LineHeight(m, HeadingSize(h2.name))
  {
    HeadingLeaf(s, h1, m);
    var r1 := RenderNode(s, h1, m);
    HeadingLeaf(r1, h2, m);
    assert ResetFont(r1).lastMargin == MarginBottom;
  }

  /**
   The draw log of a whole document is in top-to-bottom order: every text is
   drawn at or above every later one, and at or above where the pass ends.
   */
  lemma DocumentTopToBottom(root: Node, m: Metrics)
    requires Sane(m)
    ensures var r := RenderDocument(Initial, root, m);
            (forall i, j :: 0 <= i < j < |r.log| ==> r.log[i].y <= r.log[j].y)
            && (forall i :: 0 <= i < |r.log| ==> r.log[i].y <= r.y)
  {
    var r := RenderDocument(Initial, root, m);
    OrderedPairs(r.log, r.y);
  }

  /**
   The renderer: the page object's cursor and font, the globals `newline`
   and `lastMargin`, and the draws made so far.
   */
  class Renderer {
    var x: real
    var y: real
    var size: real
    var style: string
    var newline: bool
    var lastMargin: real
    var log: seq<Draw>
    const metrics: Metrics

    /** The layout state the fields hold. */
    function Snapshot(): State
      reads this
    {
      State(x, y, size, style, newline, lastMargin, log)
    }

    ghost predicate Valid()
      reads this
    {
      Sane(metrics)
    }

    /** A fresh run: cursor at the origin, page font, both globals zero. */
    constructor (m: Metrics)
      requires Sane(m)
      ensures Valid() && metrics == m && Snapshot() == Initial
    {
      metrics := m;
      x, y := 0.0, 0.0;
      size, style := PageFontSize, PageFontStyle;
      newline, lastMargin := false, 0.0;
      log := [];
    }

    method SetNewLine()
      requires Valid()
      modifies this
      ensures Valid()
      ensures Snapshot() == NewLine(old(Snapshot()), metrics)
    {
      if !newline {
        x, y := metrics.leftMargin, y + LineHeight(metrics, size);
        newline := true;
      }
    }

    method DrawHX(n: Node)
      requires Valid() && IsHeading(n.name)
      modifies this
      ensures Valid()
      ensures Snapshot() == DrawHeading(old(Snapshot()), n.name, n.text, metrics)
    {
      var marginTop := MarginTop(lastMargin);
      size := HeadingSize(n.name);
      x, y := metrics.leftMargin, y + LineHeight(metrics, size) + marginTop;
      log := log + [Text(x, y, n.text, style, size)];
      x, y := metrics.leftMargin, y + MarginBottom;
      lastMargin := MarginBottom;
    }

    method DrawTr(row: Node, t: map<int, real>)
      requires Valid()
      modifies this
      ensures Valid()
      ensures Snapshot() == DrawRow(old(Snapshot()), row, t, metrics)
    {
      x, y := metrics.leftMargin, y + LineHeight(metrics, size);
      ghost var down := Snapshot();
      var i := 0;
      while i < |row.children|
        invariant 0 <= i <= |row.children|
        invariant Cells(Snapshot(), row.children, t, i) == Cells(down, row.children, t, 0)
      {
        ghost var before := Snapshot();
        log := log + [Text(x, y, row.children[i].text, style, size)];
        x := x + Lookup(t, i) + 1.0;
        CellsStep(before, row.children, t, i, Snapshot());
        i := i + 1;
      }
      assert Cells(Snapshot(), row.children, t, i) == Snapshot();
    }

    method DrawTable(n: Node)
      requires Valid()
      modifies this
      ensures Valid()
      ensures Snapshot() == Table.DrawTable(old(Snapshot()), n, metrics)
    {
      var t := Measure(n.children, style, size, metrics);
      var i := 0;
      while i < |n.children|
        invariant 0 <= i <= |n.children|
        invariant Rows(Snapshot(), n.children, t, i, metrics) == Rows(old(Snapshot()), n.children, t, 0, metrics)
      {
        ghost var before := Snapshot();
        DrawTr(n.children[i], t);
        RowsStep(before, n.children, t, i, metrics, Snapshot());
        i := i + 1;
      }
      x, y := metrics.leftMargin, y + LineHeight(metrics, size);
    }

    /** The `b` branch of the dispatcher. */
    method DrawBold(text: string)
      requires Valid()
      modifies this
      ensures Valid()
      ensures Snapshot() == Emphasis(old(Snapshot()), text, metrics)
    {
      size, style := PageFontSize, Bold;
      log := log + [Text(x, y, text, style, size)];
      x := x + metrics.width(text, style, size) + 1.0;
      newline := false;
    }

    /** The switch of the dispatcher, after the font reset; tells whether to visit the children. */
    method ApplyRule(n: Node) returns (parseChildren: bool)
      requires Valid() && size > 0.0
      modifies this
      ensures Valid()
      ensures parseChildren <==> n.name != "table"
      ensures Snapshot() == Dispatch(old(Snapshot()), n, metrics)
    {
      parseChildren := true;
      if n.name == "div" {
        SetNewLine();
      } else if IsHeading(n.name) {
        DrawHX(n);
      } else if n.name == "b" {
        DrawBold(n.text);
      } else if n.name == "table" {
        SetNewLine();
        DrawTable(n);
        parseChildren := false;
      }
    }

    /** The dispatcher (the source's `pdf` method on a node). */
    method Render(n: Node)
      requires Valid()
      modifies this
      ensures Valid()
      ensures Snapshot() == RenderNode(old(Snapshot()), n, metrics)
      decreases n
    {
      size, style := PageFontSize, PageFontStyle;
      var parseChildren := ApplyRule(n);
      if parseChildren {
        ghost var start := Snapshot();
        var i := 0;
        while i < |n.children|
          invariant 0 <= i <= |n.children|
          invariant RenderKids(Snapshot(), n, i, metrics) == RenderKids(start, n, 0, metrics)
        {
          Render(n.children[i]);
          i := i + 1;
        }
      }
    }

    method PrintSelf(root: Node)
      requires Valid()
      modifies this
      ensures Valid()
      ensures Snapshot() == RenderDocument(old(Snapshot()), root, metrics)
    {
      size, style := 16.0, Bold;
      x, y := 0.0, 0.0;
      Render(root);
    }
  }
}
