/** The plugin object itself: the nullable views and the settings store are
    fields that its handlers update step by step. Each method is proved
    against the function of the same name that specifies it. */
module AlQuranExtension {
  import opened Geometry
  import opened Views
  import LayoutCoordinator
  import SyncCoordinator
  import VisibilityController

  class AlQuran {
    var reciter: Option<Reciter>
    var reader: Option<Reader>
    var bookmarkBar: Option<BookmarkBar>
    /** The host's settings store, as far as these flags go. */
    var settings: map<string, bool>

    /** The abstract value of the object. */
    ghost function Model(): Plugin
      reads this
    {
      Plugin(reciter, reader, bookmarkBar, settings)
    }

    /** The constructor leaves all three views null; the store holds what
        earlier sessions saved. */
    constructor (stored: map<string, bool>)
      ensures Model() == Plugin(None, None, None, stored)
    {
      reciter, reader, bookmarkBar := None, None, None;
      settings := stored;
    }

    /** `initialize`: gives up when the host's own initialisation failed
        (`baseOk` false); otherwise replaces the views with the freshly
        constructed ones given, hides the reciter's pickers, applies the
        stored toggles and forces a layout for the container size `(w, h)`. */
    method Initialize(baseOk: bool, newReciter: Reciter, newReader: Reader, newBar: BookmarkBar, w: int, h: int)
      returns (ok: bool)
      modifies this
      ensures ok == baseOk
      ensures !ok ==> Model() == old(Model())
      ensures ok ==> Model() == VisibilityController.Initialize(old(Model()), newReciter, newReader, newBar, w, h)
    {
      if !baseOk {
        return false;
      }
      reciter, reader, bookmarkBar := None, None, None;
      reciter := Some(newReciter);
      reader := Some(newReader);
      reciter := Some(reciter.value.(selectors := reciter.value.selectors.(chapter := false)));
      reciter := Some(reciter.value.(selectors := reciter.value.selectors.(verseRange := false)));
      reciter := Some(reciter.value.(selectors := reciter.value.selectors.(currentVerse := false)));
      bookmarkBar := Some(newBar);
      InitializeMenu(w, h);
      OnContainerGeometryChanged(w, h);
      ok := true;
    }

    /** `initializeMenu`: applies each stored flag (default `true`) through
        its toggle; `(w, h)` is the container size the bookmark toggle lays out for. */
    method InitializeMenu(w: int, h: int)
      requires reciter.Some? && reader.Some? && bookmarkBar.Some?
      modifies this
      ensures Model() == VisibilityController.InitializeMenu(old(Model()), w, h)
    {
      var shownReader := ToggleReader(Setting(settings, ShowReaderKey, true));
      var shownReciter := ToggleReciter(Setting(settings, ShowReciterKey, true));
      var shownBookmarks := ToggleBookmarkBar(Setting(settings, ShowBookmarksKey, true), w, h);
    }

    method OnContainerGeometryChanged(w: int, h: int)
      requires reciter.Some? && reader.Some? && bookmarkBar.Some?
      modifies this
      ensures Model() == LayoutCoordinator.OnContainerGeometryChanged(old(Model()), w, h)
    {
      var centerX := Half(w) - Half(reciter.value.bounds.width);
      var bottom := h - reciter.value.bounds.height;
      reciter := Some(reciter.value.(bounds := Move(reciter.value.bounds, centerX, bottom)));
      if bookmarkBar.value.visible {
        var bar := bookmarkBar.value;
        bookmarkBar := Some(bar.(bounds := Resize(bar.bounds, BookmarkBarWidth, h - reciter.value.bounds.height)));
        bar := bookmarkBar.value;
        bookmarkBar := Some(bar.(bounds := Move(bar.bounds, w - BookmarkBarWidth, 0)));
      }
      var width := w - (if bookmarkBar.value.visible then BookmarkBarWidth else 0);
      reader := Some(reader.value.(bounds := Resize(reader.value.bounds, width, h - reciter.value.bounds.height)));
    }

    method OnChapterChangedReciter(chapter: int)
      modifies this
      ensures Model() == SyncCoordinator.OnChapterChangedReciter(old(Model()), chapter)
    {
      if reader.Some? {
        reader := Some(reader.value.(at := reader.value.at.(chapter := chapter)));
      }
    }

    method OnVerseRangeChangedReciter(from: int, to: int)
      modifies this
      ensures Model() == SyncCoordinator.OnVerseRangeChangedReciter(old(Model()), from, to)
    {
      if reader.Some? {
        reader := Some(reader.value.(at := reader.value.at.(verseFrom := from, verseTo := to)));
      }
    }

    method OnChapterChangedReader(chapter: int)
      modifies this
      ensures Model() == SyncCoordinator.OnChapterChangedReader(old(Model()), chapter)
    {
      if reciter.Some? {
        reciter := Some(reciter.value.(at := reciter.value.at.(chapter := chapter)));
      }
    }

    method OnVerseRangeChangedReader(from: int, to: int)
      modifies this
      ensures Model() == SyncCoordinator.OnVerseRangeChangedReader(old(Model()), from, to)
    {
      if reciter.Some? {
        reciter := Some(reciter.value.(at := reciter.value.at.(verseFrom := from, verseTo := to)));
      }
    }

    method OnSelectedVerseChangedReciter(verseNumber: int)
      modifies this
      ensures Model() == SyncCoordinator.OnSelectedVerseChangedReciter(old(Model()), verseNumber)
    {
      if reader.Some? {
        if reader.value.at.currentVerse != verseNumber {
          reader := Some(reader.value.(highlighted := reader.value.highlighted + [verseNumber]));
        }
      }
    }

    method OnSelectedVerseChangedReader(index: int)
      modifies this
      ensures Model() == SyncCoordinator.OnSelectedVerseChangedReader(old(Model()), index)
    {
      if reciter.Some? {
        reciter := Some(reciter.value.(at := reciter.value.at.(currentVerse := index)));
      }
    }

    method OnBookmarkChanged(bookmark: Bookmark)
      requires reader.Some?
      modifies this
      ensures Model() == SyncCoordinator.OnBookmarkChanged(old(Model()), bookmark)
    {
      reader := Some(reader.value.(at := reader.value.at.(chapter := bookmark.chapter)));
      reader := Some(reader.value.(at := reader.value.at.(verseFrom := bookmark.verseFrom, verseTo := bookmark.verseTo)));
    }

    method ToggleReciter(val: bool) returns (shown: bool)
      requires reciter.Some?
      modifies this
      ensures shown == val
      ensures Model() == VisibilityController.ToggleReciter(old(Model()), val)
    {
      reciter := Some(reciter.value.(visible := val));
      settings := settings[ShowReciterKey := val];
      shown := val;
    }

    method ToggleReader(val: bool) returns (shown: bool)
      requires reader.Some? && reciter.Some?
      modifies this
      ensures shown == val
      ensures Model() == VisibilityController.ToggleReader(old(Model()), val)
    {
      reader := Some(reader.value.(visible := val));
      settings := settings[ShowReaderKey := val];
      var selectors := reciter.value.selectors;
      if !val {
        selectors := selectors.(chapter := true);
        selectors := selectors.(verseRange := true);
        selectors := selectors.(currentVerse := true);
      } else {
        selectors := selectors.(chapter := false);
        selectors := selectors.(verseRange := false);
        selectors := selectors.(currentVerse := false);
      }
      reciter := Some(reciter.value.(selectors := selectors));
      shown := val;
    }

    /** `(w, h)` is the container size the host reports when the toggle runs. */
    method ToggleBookmarkBar(val: bool, w: int, h: int) returns (shown: bool)
      requires reciter.Some? && reader.Some? && bookmarkBar.Some?
      modifies this
      ensures shown == val
      ensures Model() == VisibilityController.ToggleBookmarkBar(old(Model()), val, w, h)
    {
      bookmarkBar := Some(bookmarkBar.value.(visible := val));
      OnContainerGeometryChanged(w, h);
      settings := settings[ShowBookmarksKey := val];
      shown := val;
    }
  }

  /** A client of the class: a first session with nothing stored starts in an
      800 x 600 container with a 400 x 150 reciter, and ends with every view
      shown, the reciter's pickers hidden, the reciter at (200, 450), the bar at
      (600, 0, 200, 450) and the reader at (0, 0, 600, 450), as in
      `LayoutCoordinator.Example800x600`. */
  method FirstSessionLayout(reciter0: Reciter, reader0: Reader, bar0: BookmarkBar)
    requires reciter0.bounds.width == 400 && reciter0.bounds.height == 150
    requires reader0.bounds.x == 0 && reader0.bounds.y == 0
  {
    var plugin := new AlQuran(map[]);
    var ok := plugin.Initialize(true, reciter0, reader0, bar0, 800, 600);
    assert plugin.reader.value.visible && plugin.reciter.value.visible && plugin.bookmarkBar.value.visible;
    assert plugin.reciter.value.selectors == AllSelectors(false);
    assert plugin.reciter.value.bounds == Rect(200, 450, 400, 150);
    assert plugin.bookmarkBar.value.bounds == Rect(600, 0, 200, 450);
    assert plugin.reader.value.bounds == Rect(0, 0, 600, 450);
    var shown := plugin.ToggleReader(false);
    assert plugin.reciter.value.selectors == AllSelectors(true);
    assert plugin.settings[ShowReaderKey] == false;
  }
}
