/** The state the plugin object reaches: its three nullable views and the
    host's settings store, as values. */
module Views {
  import opened Geometry

  /** A nullable member pointer: `None` is `nullptr`. */
  datatype Option<T> = None | Some(value: T)

  /** Where a view is in the text. The chapter is an opaque identifier;
      the verse range and the current verse are not validated here. */
  datatype Position = Position(chapter: int, verseFrom: int, verseTo: int, currentVerse: int)

  /** Whether the reciter's chapter, verse-range and current-verse pickers are shown. */
  datatype Selectors = Selectors(chapter: bool, verseRange: bool, currentVerse: bool)

  /** All three reciter pickers shown (`true`) or all hidden (`false`). */
  function AllSelectors(shown: bool): Selectors
  {
    Selectors(shown, shown, shown)
  }

  /** The recitation view. Its size comes from its own content. */
  datatype Reciter = Reciter(visible: bool, bounds: Rect, at: Position, selectors: Selectors)

  /** The reading view; `highlighted` logs the verses passed to `highlightVerse`, oldest first. */
  datatype Reader = Reader(visible: bool, bounds: Rect, at: Position, highlighted: seq<int>)

  /** The bookmark strip; only its visibility and bounds matter to the plugin. */
  datatype BookmarkBar = BookmarkBar(visible: bool, bounds: Rect)

  /** A bookmark as the bar hands it over on selection. */
  datatype Bookmark = Bookmark(chapter: int, verseFrom: int, verseTo: int)

  /** Everything the plugin object reaches. */
  datatype Plugin = Plugin(
    reciter: Option<Reciter>,
    reader: Option<Reader>,
    bookmarkBar: Option<BookmarkBar>,
    settings: map<string, bool>)

  /** All three views have been constructed (the state after `initialize`). */
  predicate Ready(s: Plugin)
  {
    s.reciter.Some? && s.reader.Some? && s.bookmarkBar.Some?
  }

  /** The reciter's pickers are shown exactly when the reader is hidden:
      they would duplicate what a visible reader already offers. */
  predicate Coupled(s: Plugin)
  {
    s.reciter.Some? && s.reader.Some? &&
    s.reciter.value.selectors == AllSelectors(!s.reader.value.visible)
  }

  const ShowReaderKey: string := "show_reader"
  const ShowReciterKey: string := "show_reciter"
  const ShowBookmarksKey: string := "show_bookmarks"

  /** The host's `setting(key, default)`: the stored flag, or the default when none is stored. */
  function Setting(settings: map<string, bool>, key: string, default: bool): bool
  {
    if key in settings then settings[key] else default
  }
}
