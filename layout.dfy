/** Placement of the three views when the container's geometry changes
    (`onContainerGeometryChanged`). */
module LayoutCoordinator {
  import opened Geometry
  import opened Views

  /** The reciter is moved to the bottom centre, the bookmark bar (only when
      visible) becomes the strip on the right edge above the reciter's
      height, and the reader is resized to what is left; the reader is never
      moved and a hidden bar keeps its bounds. All three views are
      dereferenced without a null check. */
  function OnContainerGeometryChanged(s: Plugin, w: int, h: int): (r: Plugin)
    requires Ready(s)
    ensures Ready(r) && r.settings == s.settings
    ensures var rc := s.reciter.value;
      r.reciter == Some(rc.(bounds := Rect(Half(w) - Half(rc.bounds.width), h - rc.bounds.height,
                                           rc.bounds.width, rc.bounds.height)))
    ensures var bar := s.bookmarkBar.value;
      r.bookmarkBar == Some(
        if bar.visible
        then bar.(bounds := Rect(w - BookmarkBarWidth, 0, BookmarkBarWidth, h - s.reciter.value.bounds.height))
        else bar)
    ensures var rd := s.reader.value;
      r.reader == Some(rd.(bounds := Rect(rd.bounds.x, rd.bounds.y,
                                          w - (if s.bookmarkBar.value.visible then BookmarkBarWidth else 0),
                                          h - s.reciter.value.bounds.height)))
  {
    var rc := s.reciter.value;
    var rc' := rc.(bounds := Move(rc.bounds, Half(w) - Half(rc.bounds.width), h - rc.bounds.height));
    var bar := s.bookmarkBar.value;
    var bar' :=
      if bar.visible
      then bar.(bounds := Move(Resize(bar.bounds, BookmarkBarWidth, h - rc'.bounds.height), w - BookmarkBarWidth, 0))
      else bar;
    var rd := s.reader.value;
    var rd' := rd.(bounds := Resize(rd.bounds, w - (if bar'.visible then BookmarkBarWidth else 0), h - rc'.bounds.height));
    s.(reciter := Some(rc'), bookmarkBar := Some(bar'), reader := Some(rd'))
  }

  /** With non-negative widths the reciter's left and right margins differ by
      at most one unit (the truncated halvings), and it sits on the bottom edge. */
  lemma ReciterCentred(s: Plugin, w: int, h: int)
    requires Ready(s) && 0 <= w && 0 <= s.reciter.value.bounds.width
    ensures var b := OnContainerGeometryChanged(s, w, h).reciter.value.bounds;
      -1 <= (w - (b.x + b.width)) - b.x <= 1 && b.y + b.height == h
  {
  }

  /** With the bar visible, the bar and the reader share the width: the bar's
      right edge is the container's, the two widths add up to `w`, and both
      reach down to the reciter's top edge (when the reader sits at the top). */
  lemma VisibleBarTilesContainer(s: Plugin, w: int, h: int)
    requires Ready(s) && s.bookmarkBar.value.visible
    ensures var r := OnContainerGeometryChanged(s, w, h);
      var rc, bar, rd := r.reciter.value.bounds, r.bookmarkBar.value.bounds, r.reader.value.bounds;
      bar.x + bar.width == w && rd.width + bar.width == w &&
      bar.y + bar.height == rc.y && rd.height == bar.height &&
      (rd.y == 0 ==> rd.y + rd.height == rc.y)
  {
  }

  /** Running the layout again with the same container size changes nothing. */
  lemma LayoutIdempotent(s: Plugin, w: int, h: int)
    requires Ready(s)
    ensures OnContainerGeometryChanged(OnContainerGeometryChanged(s, w, h), w, h)
         == OnContainerGeometryChanged(s, w, h)
  {
  }

  /** The computed bounds depend only on the container size, the reciter's
      size and the bar's visibility; the exceptions are the reader's position
      (never moved) and a hidden bar's bounds (left as they were). */
  lemma LayoutDependsOnSizesOnly(s1: Plugin, s2: Plugin, w: int, h: int)
    requires Ready(s1) && Ready(s2)
    requires s1.reciter.value.bounds.width == s2.reciter.value.bounds.width
    requires s1.reciter.value.bounds.height == s2.reciter.value.bounds.height
    requires s1.bookmarkBar.value.visible == s2.bookmarkBar.value.visible
    ensures var r1, r2 := OnContainerGeometryChanged(s1, w, h), OnContainerGeometryChanged(s2, w, h);
      r1.reciter.value.bounds == r2.reciter.value.bounds &&
      r1.reader.value.bounds.width == r2.reader.value.bounds.width &&
      r1.reader.value.bounds.height == r2.reader.value.bounds.height &&
      (s1.bookmarkBar.value.visible ==> r1.bookmarkBar.value.bounds == r2.bookmarkBar.value.bounds)
  {
  }

  /** An 800 x 600 container with a 400 x 150 reciter and a visible bar. */
  lemma Example800x600(s: Plugin)
    requires Ready(s) && s.bookmarkBar.value.visible
    requires s.reciter.value.bounds.width == 400 && s.reciter.value.bounds.height == 150
    requires s.reader.value.bounds.x == 0 && s.reader.value.bounds.y == 0
    ensures var r := OnContainerGeometryChanged(s, 800, 600);
      r.reciter.value.bounds == Rect(200, 450, 400, 150) &&
      r.bookmarkBar.value.bounds == Rect(600, 0, 200, 450) &&
      r.reader.value.bounds == Rect(0, 0, 600, 450)
  {
  }
}
