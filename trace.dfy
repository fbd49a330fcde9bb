/** The plugin as an event processor: once the views exist, each event is
    handled to completion, one at a time, in arrival order. The lemmas here
    say what whole sequences of events can and cannot change. */
module EventTrace {
  import opened Geometry
  import opened Views
  import opened LayoutCoordinator
  import opened SyncCoordinator
  import opened VisibilityController

  /** One invocation of a handler of the plugin. `(w, h)` in the toggle of the
      bookmark bar is the container size the host reports at that moment. */
  datatype Event =
    | ChapterFromReciter(chapter: int)
    | VerseRangeFromReciter(from: int, to: int)
    | VerseFromReciter(verse: int)
    | ChapterFromReader(chapter: int)
    | VerseRangeFromReader(from: int, to: int)
    | VerseFromReader(index: int)
    | BookmarkSelected(bookmark: Bookmark)
    | ReaderToggled(val: bool)
    | ReciterToggled(val: bool)
    | BookmarksToggled(val: bool, w: int, h: int)
    | GeometryChanged(w: int, h: int)

  /** Position traffic between the views: the events that only route positions. */
  predicate IsSync(e: Event)
  {
    e.ChapterFromReciter? || e.VerseRangeFromReciter? || e.VerseFromReciter? ||
    e.ChapterFromReader? || e.VerseRangeFromReader? || e.VerseFromReader? || e.BookmarkSelected?
  }

  /** The events that re-run the layout. */
  predicate LaysOut(e: Event)
  {
    e.BookmarksToggled? || e.GeometryChanged?
  }

  function Step(s: Plugin, e: Event): (r: Plugin)
    requires Ready(s)
    ensures Ready(r)
    ensures r.reciter.value.bounds.width == s.reciter.value.bounds.width
    ensures r.reciter.value.bounds.height == s.reciter.value.bounds.height
    ensures Coupled(s) ==> Coupled(r)
  {
    match e
    case ChapterFromReciter(c) => OnChapterChangedReciter(s, c)
    case VerseRangeFromReciter(from, to) => OnVerseRangeChangedReciter(s, from, to)
    case VerseFromReciter(v) => OnSelectedVerseChangedReciter(s, v)
    case ChapterFromReader(c) => OnChapterChangedReader(s, c)
    case VerseRangeFromReader(from, to) => OnVerseRangeChangedReader(s, from, to)
    case VerseFromReader(i) => OnSelectedVerseChangedReader(s, i)
    case BookmarkSelected(b) => OnBookmarkChanged(s, b)
    case ReaderToggled(val) => ToggleReader(s, val)
    case ReciterToggled(val) => ToggleReciter(s, val)
    case BookmarksToggled(val, w, h) => ToggleBookmarkBar(s, val, w, h)
    case GeometryChanged(w, h) => OnContainerGeometryChanged(s, w, h)
  }

  /** Handles the events in order. The views stay constructed and the
      reciter keeps the size its content gave it, whatever happens. */
  function Run(s: Plugin, events: seq<Event>): (r: Plugin)
    requires Ready(s)
    ensures Ready(r)
    ensures r.reciter.value.bounds.width == s.reciter.value.bounds.width
    ensures r.reciter.value.bounds.height == s.reciter.value.bounds.height
    decreases |events|
  {
    if events == [] then s else Run(Step(s, events[0]), events[1..])
  }

  /** Once the reciter's pickers are coupled to the reader's visibility (as
      every toggle of the reader leaves them), no sequence of events decouples them. */
  lemma {:induction false} CoupledAlongTrace(s: Plugin, events: seq<Event>)
    requires Ready(s) && Coupled(s)
    ensures Coupled(Run(s, events))
    decreases |events|
  {
    if events != [] {
      CoupledAlongTrace(Step(s, events[0]), events[1..]);
    }
  }

  /** Position traffic alone never changes any view's visibility or bounds,
      the reciter's pickers, or the stored settings. */
  lemma {:induction false} SyncTraceKeepsPresentation(s: Plugin, events: seq<Event>)
    requires Ready(s)
    requires forall i :: 0 <= i < |events| ==> IsSync(events[i])
    ensures var r := Run(s, events);
      r.reciter.value.(at := s.reciter.value.at) == s.reciter.value &&
      r.reader.value.visible == s.reader.value.visible &&
      r.reader.value.bounds == s.reader.value.bounds &&
      r.bookmarkBar == s.bookmarkBar && r.settings == s.settings
    decreases |events|
  {
    if events != [] {
      SyncTraceKeepsPresentation(Step(s, events[0]), events[1..]);
    }
  }

  /** Without a geometry change or a toggle of the bookmark bar, no view's
      bounds change: toggling the reader or the reciter does not lay out. */
  lemma {:induction false} BoundsChangeOnlyOnLayout(s: Plugin, events: seq<Event>)
    requires Ready(s)
    requires forall i :: 0 <= i < |events| ==> !LaysOut(events[i])
    ensures var r := Run(s, events);
      r.reciter.value.bounds == s.reciter.value.bounds &&
      r.reader.value.bounds == s.reader.value.bounds &&
      r.bookmarkBar.value.bounds == s.bookmarkBar.value.bounds
    decreases |events|
  {
    if events != [] {
      BoundsChangeOnlyOnLayout(Step(s, events[0]), events[1..]);
    }
  }

  /** The reader's highlight log only grows: earlier highlights are never lost. */
  lemma {:induction false} HighlightsOnlyGrow(s: Plugin, events: seq<Event>)
    requires Ready(s)
    ensures s.reader.value.highlighted <= Run(s, events).reader.value.highlighted
    decreases |events|
  {
    if events != [] {
      var s1 := Step(s, events[0]);
      assert s.reader.value.highlighted <= s1.reader.value.highlighted;
      HighlightsOnlyGrow(s1, events[1..]);
    }
  }
}
