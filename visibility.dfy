/** The three visibility toggles, each persisted under its own settings key,
    and the start-up sequence that creates the views and applies the stored
    toggles (`initialize`, `initializeMenu`). */
module VisibilityController {
  import opened Geometry
  import opened Views
  import opened LayoutCoordinator

  /** Shows or hides the reciter and persists the flag; nothing else changes,
      in particular no bounds are recomputed. The reciter is dereferenced
      without a null check. */
  function ToggleReciter(s: Plugin, val: bool): (r: Plugin)
    requires s.reciter.Some?
    ensures r.reciter.Some? && r.reciter.value.visible == val
    ensures r.reciter.value.(visible := s.reciter.value.visible) == s.reciter.value
    ensures r.reader == s.reader && r.bookmarkBar == s.bookmarkBar
    ensures r.settings == s.settings[ShowReciterKey := val]
  {
    var s1 := s.(reciter := Some(s.reciter.value.(visible := val)));
    s1.(settings := s1.settings[ShowReciterKey := val])
  }

  /** Shows or hides the reader, persists the flag, and shows the reciter's
      three pickers exactly when the reader is hidden. No bounds change. */
  function ToggleReader(s: Plugin, val: bool): (r: Plugin)
    requires s.reader.Some? && s.reciter.Some?
    ensures r.reader.Some? && r.reader.value.visible == val
    ensures r.reader.value.(visible := s.reader.value.visible) == s.reader.value
    ensures r.reciter.Some? && r.reciter.value.selectors == AllSelectors(!val)
    ensures r.reciter.value.(selectors := s.reciter.value.selectors) == s.reciter.value
    ensures Coupled(r)
    ensures r.bookmarkBar == s.bookmarkBar
    ensures r.settings == s.settings[ShowReaderKey := val]
  {
    var s1 := s.(reader := Some(s.reader.value.(visible := val)));
    var s2 := s1.(settings := s1.settings[ShowReaderKey := val]);
    var rc := s2.reciter.value;
    var selectors :=
      if !val then rc.selectors.(chapter := true, verseRange := true, currentVerse := true)
      else rc.selectors.(chapter := false, verseRange := false, currentVerse := false);
    s2.(reciter := Some(rc.(selectors := selectors)))
  }

  /** Shows or hides the bookmark bar, lays the views out again for the
      container size `(w, h)` with the new visibility, and persists the flag. */
  function ToggleBookmarkBar(s: Plugin, val: bool, w: int, h: int): (r: Plugin)
    requires Ready(s)
    ensures Ready(r) && r.bookmarkBar.value.visible == val
    ensures r.settings == s.settings[ShowBookmarksKey := val]
    ensures var rch := s.reciter.value.bounds.height;
      (val ==> r.bookmarkBar.value.bounds == Rect(w - BookmarkBarWidth, 0, BookmarkBarWidth, h - rch)) &&
      (!val ==> r.bookmarkBar.value.bounds == s.bookmarkBar.value.bounds) &&
      r.reader.value.bounds.width == w - (if val then BookmarkBarWidth else 0) &&
      r.reader.value.bounds.height == h - rch
    ensures r.reader.value == s.reader.value.(bounds := Rect(s.reader.value.bounds.x, s.reader.value.bounds.y,
      w - (if val then BookmarkBarWidth else 0), h - s.reciter.value.bounds.height))
    ensures r.reciter == OnContainerGeometryChanged(s, w, h).reciter
    ensures Coupled(s) ==> Coupled(r)
  {
    var s1 := s.(bookmarkBar := Some(s.bookmarkBar.value.(visible := val)));
    var s2 := OnContainerGeometryChanged(s1, w, h);
    s2.(settings := s2.settings[ShowBookmarksKey := val])
  }

  /** Lines up to the menu set-up of `initialize`: any previous views are
      dropped, the given freshly constructed ones take their place, and the
      reciter's three pickers are hidden. */
  function CreateViews(s: Plugin, reciter: Reciter, reader: Reader, bar: BookmarkBar): (r: Plugin)
    ensures Ready(r) && r.settings == s.settings
    ensures r.reciter.value.selectors == AllSelectors(false)
    ensures r.reciter.value.(selectors := reciter.selectors) == reciter
    ensures r.reader == Some(reader) && r.bookmarkBar == Some(bar)
  {
    var rc := reciter.(selectors := reciter.selectors.(chapter := false, verseRange := false, currentVerse := false));
    s.(reciter := Some(rc), reader := Some(reader), bookmarkBar := Some(bar))
  }

  /** `initializeMenu`: each toggle is applied with its stored flag (default
      `true`), reader first, then reciter, then bookmark bar; afterwards every
      view shows what its stored flag says and every flag is stored. */
  function InitializeMenu(s: Plugin, w: int, h: int): (r: Plugin)
    requires Ready(s)
    ensures Ready(r) && Coupled(r)
    ensures r.reader.value.visible == Setting(s.settings, ShowReaderKey, true)
    ensures r.reciter.value.visible == Setting(s.settings, ShowReciterKey, true)
    ensures r.bookmarkBar.value.visible == Setting(s.settings, ShowBookmarksKey, true)
    ensures ShowReaderKey in r.settings && r.settings[ShowReaderKey] == r.reader.value.visible
    ensures ShowReciterKey in r.settings && r.settings[ShowReciterKey] == r.reciter.value.visible
    ensures ShowBookmarksKey in r.settings && r.settings[ShowBookmarksKey] == r.bookmarkBar.value.visible
    ensures forall k :: k != ShowReaderKey && k != ShowReciterKey && k != ShowBookmarksKey ==>
      (k in r.settings <==> k in s.settings) && (k in s.settings ==> r.settings[k] == s.settings[k])
    ensures r.reader.value.at == s.reader.value.at && r.reciter.value.at == s.reciter.value.at
    ensures r.reader.value.bounds.width == w - (if r.bookmarkBar.value.visible then BookmarkBarWidth else 0)
  {
    var s1 := ToggleReader(s, Setting(s.settings, ShowReaderKey, true));
    var s2 := ToggleReciter(s1, Setting(s1.settings, ShowReciterKey, true));
    ToggleBookmarkBar(s2, Setting(s2.settings, ShowBookmarksKey, true), w, h)
  }

  /** `initialize` once the host's own initialisation succeeded: create the
      views, apply the stored toggles, then force one layout for the
      container's current size `(w, h)`. */
  function Initialize(s: Plugin, reciter: Reciter, reader: Reader, bar: BookmarkBar, w: int, h: int): (r: Plugin)
    ensures Ready(r) && Coupled(r)
    ensures r.reader.value.visible == Setting(s.settings, ShowReaderKey, true)
    ensures r.reciter.value.visible == Setting(s.settings, ShowReciterKey, true)
    ensures r.bookmarkBar.value.visible == Setting(s.settings, ShowBookmarksKey, true)
    ensures r.reader.value.at == reader.at && r.reciter.value.at == reciter.at
    ensures r.reader.value.bounds.width == w - (if r.bookmarkBar.value.visible then BookmarkBarWidth else 0)
    ensures r.reader.value.bounds.height == h - reciter.bounds.height
  {
    OnContainerGeometryChanged(InitializeMenu(CreateViews(s, reciter, reader, bar), w, h), w, h)
  }

  /** Applying a toggle a second time with the same value changes nothing.
      This covers the repeated call made when the menu action, already
      connected to the toggle, is checked with the value the toggle returned. */
  lemma TogglesIdempotent(s: Plugin, val: bool, w: int, h: int)
    requires Ready(s)
    ensures ToggleReader(ToggleReader(s, val), val) == ToggleReader(s, val)
    ensures ToggleReciter(ToggleReciter(s, val), val) == ToggleReciter(s, val)
    ensures ToggleBookmarkBar(ToggleBookmarkBar(s, val, w, h), val, w, h) == ToggleBookmarkBar(s, val, w, h)
  {
  }

  /** Persistence across sessions: whatever a toggle stored is what the next
      session's menu set-up shows, whatever that session's views were. */
  lemma ToggleSurvivesRestart(s: Plugin, next: Plugin, val: bool, w: int, h: int)
    requires Ready(s) && Ready(next)
    ensures next.settings == ToggleReader(s, val).settings ==>
      InitializeMenu(next, w, h).reader.value.visible == val
    ensures next.settings == ToggleReciter(s, val).settings ==>
      InitializeMenu(next, w, h).reciter.value.visible == val
    ensures next.settings == ToggleBookmarkBar(s, val, w, h).settings ==>
      InitializeMenu(next, w, h).bookmarkBar.value.visible == val
  {
  }

  /** Running the menu set-up again on its own result changes nothing: the
      flags it stored are the ones it reads back. */
  lemma InitializeMenuStable(s: Plugin, w: int, h: int)
    requires Ready(s)
    ensures InitializeMenu(InitializeMenu(s, w, h), w, h) == InitializeMenu(s, w, h)
  {
  }

  /** The layout forced at the end of `initialize` is redundant when the
      container reports the same size to the bookmark toggle: the menu set-up
      already laid the views out. */
  lemma ForcedLayoutRedundant(s: Plugin, reciter: Reciter, reader: Reader, bar: BookmarkBar, w: int, h: int)
    ensures Initialize(s, reciter, reader, bar, w, h) == InitializeMenu(CreateViews(s, reciter, reader, bar), w, h)
  {
  }
}
