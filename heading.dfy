/**
 The heading rule (drawHX): a fixed font size per level, a top margin that
 collapses against the bottom margin of the previous heading, and a fixed
 bottom margin.
 */
module Heading {
  import opened Layout

  /** The top margin a heading asks for before collapsing. */
  const BaseMarginTop: real := 6.0
  /** The bottom margin every heading leaves, remembered in `lastMargin`. */
  const MarginBottom: real := 6.0

  /** The tags the heading rule handles. */
  const HeadingTags: set<string> := {"h1", "h2", "h3", "h4", "h5", "h6"}

  predicate IsHeading(name: string)
  {
    name in HeadingTags
  }

  /** The font size of a heading level: h1 is largest, h4 to h6 share the page size. */
  function HeadingSize(name: string): (size: real)
    requires IsHeading(name)
    ensures PageFontSize <= size <= 18.0
    ensures size == PageFontSize <==> name in {"h4", "h5", "h6"}
  {
    if name == "h1" then 18.0
    else if name == "h2" then 16.0
    else if name == "h3" then 14.0
    else 12.0
  }

  /** Sizes strictly decrease from h1 to h4 and stay flat from h4 to h6. */
  lemma HeadingSizesDescend()
    ensures HeadingSize("h1") > HeadingSize("h2") > HeadingSize("h3") > HeadingSize("h4")
    ensures HeadingSize("h4") == HeadingSize("h5") == HeadingSize("h6")
  {
  }

  /**
   The collapsed top margin: never negative, and together with the previous
   bottom margin it makes up the base margin, unless that margin alone
   already covers it.
   */
  function MarginTop(lastMargin: real): (mt: real)
    ensures mt >= 0.0
    ensures lastMargin < BaseMarginTop ==> mt + lastMargin == BaseMarginTop
    ensures lastMargin >= BaseMarginTop ==> mt == 0.0
  {
    if BaseMarginTop > lastMargin then BaseMarginTop - lastMargin else 0.0
  }

  /**
   drawHX: switch to the level's size, move down by one line of it plus the
   collapsed top margin (which brings x back to the left margin), draw the
   text there, move down by the bottom margin and remember it.
   */
  function DrawHeading(s: State, name: string, text: string, m: Metrics): (r: State)
    requires Sane(m) && IsHeading(name)
    ensures r.x == m.leftMargin && r.style == s.style && r.newline == s.newline
    ensures r.size == HeadingSize(name)
    ensures r.lastMargin == MarginBottom
    ensures |r.log| == |s.log| + 1 && r.log[..|s.log|] == s.log
    ensures r.log[|s.log|]
         == Text(m.leftMargin, s.y + LineHeight(m, r.size) + MarginTop(s.lastMargin), text, s.style, r.size)
    ensures r.y == r.log[|s.log|].y + MarginBottom
    ensures s.y < r.log[|s.log|].y < r.y
    ensures Advances(s, r)
  {
    var size := HeadingSize(name);
    var top := SetY(s.(size := size), s.y + LineHeight(m, size) + MarginTop(s.lastMargin), m);
    var d := Text(top.x, top.y, text, top.style, top.size);
    var r := SetY(top.(log := top.log + [d]), top.y + MarginBottom, m).(lastMargin := MarginBottom);
    if Ordered(s) then
      SortedBelowLower(s.log, s.y, top.y);
      DrawAtCursor(s.log, top.y, d);
      SortedBelowLower(s.log + [d], top.y, r.y);
      r
    else
      r
  }

  /** Once a heading has been drawn, the next heading gets no top margin. */
  lemma NextHeadingCollapses(s: State, name: string, text: string, m: Metrics)
    requires Sane(m) && IsHeading(name)
    ensures MarginTop(DrawHeading(s, name, text, m).lastMargin) == 0.0
  {
  }
}
