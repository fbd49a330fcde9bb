# Al-Qur'an plugin: coordination logic

A Dafny model of the coordination core of the Al-Qur'an extension of Project Islam
(`extensions/al-quran/al_quran.cc`). The extension shows two views of the same
position in the text, a recitation view (the reciter) and a reading view (the
reader), plus a bookmark strip, inside a container the host supplies. The model
covers the three things the extension object itself decides:

- **Layout** (`onContainerGeometryChanged`): the reciter is placed bottom-centre,
  a visible bookmark bar becomes a 200-unit strip on the right edge, and the reader
  is resized to what is left. C++ truncating `int` halving is modelled by
  `Geometry.Half`.
- **Position routing** (`onChapterChanged*`, `onVerseRangeChanged*`,
  `onSelectedVerseChanged*`, `onBookmarkChanged`): a change reported by one view is
  applied to the other view only, skipped when that view is null; a verse from the
  reciter becomes a highlight on the reader only when the reader's verse differs,
  a verse from the reader always moves the reciter.
- **Visibility** (`toggleReader`, `toggleReciter`, `toggleBookmarkBar`, with the
  start-up sequence of `initialize` and `initializeMenu`): each toggle sets a
  view's visibility and stores the flag under a fixed key; the reader toggle shows
  the reciter's three pickers exactly when the reader is hidden; the bookmark
  toggle lays the views out again.

Files:

- `geometry.dfy` (`Geometry`): rectangles, `move`/`resize`, the bar width, `Half`.
- `views.dfy` (`Views`): the reciter, reader and bookmark-bar records, the nullable
  slots holding them, the settings store, `Ready` and `Coupled`.
- `layout.dfy` (`LayoutCoordinator`), `sync.dfy` (`SyncCoordinator`),
  `visibility.dfy` (`VisibilityController`): each handler as a function on the
  plugin state, with its contract and the lemmas about it.
- `trace.dfy` (`EventTrace`): the handlers as a single-threaded event processor,
  and what whole sequences of events preserve.
- `al_quran.dfy` (`AlQuranExtension`): the class `AlQuran` whose fields are the
  three nullable views and the settings map; every handler is a method that updates
  those fields step by step and is proved to leave exactly the state the matching
  function describes. `FirstSessionLayout` is a client that checks the worked
  800 x 600 example through the class's contracts alone.

A null member pointer is `None`; the views are value records inside the object,
so "nothing else changes" is stated on the whole state.

## Behaviour as coded

Points where the code's behaviour is easy to misread:

- The "differs from the current verse" check exists only for verses reported by
  the reciter; a verse reported by the reader is always sent to the reciter.
- Selecting a bookmark changes only the reader. The reciter follows only if the
  reader reports the change itself, which happens in code that is not part of
  this model (`SyncCoordinator.BookmarkReachesReciterThroughReader` proves the
  outcome under that condition).
- `onBookmarkChanged`, the toggles and the layout dereference their views without
  a null check, so the model requires those views to exist; only the six routing
  handlers skip a null view.
- The layout never moves the reader, and it moves the reciter and resizes the
  reader whether or not they are visible; only a hidden bookmark bar is left alone.
- Only the bookmark toggle re-runs the layout; the reader and reciter toggles do not.

## Model

| member | source | states |
|---|---|---|
| Geometry.Half | extensions/al-quran/al_quran.cc:88 | `w / 2` on a C++ `int` truncates toward zero: the remainder lies in [0, 1] for non-negative and in [-1, 0] for negative operands |
| LayoutCoordinator.OnContainerGeometryChanged | extensions/al-quran/al_quran.cc:86-99 | reciter moved to (w/2 - width/2, h - height) with its size kept; a visible bar gets bounds (w - 200, 0, 200, h - reciterHeight), a hidden one keeps its bounds; reader resized to (w - 200 or w, h - reciterHeight) at its old position; settings untouched |
| LayoutCoordinator.ReciterCentred | extensions/al-quran/al_quran.cc:88-90 | for non-negative widths the reciter's left and right margins differ by at most one and its bottom edge is the container's |
| LayoutCoordinator.VisibleBarTilesContainer | extensions/al-quran/al_quran.cc:92-98 | with the bar visible, bar and reader widths sum to w, the bar ends at the right edge, and bar and reader reach down to the reciter's top edge |
| LayoutCoordinator.LayoutIdempotent | extensions/al-quran/al_quran.cc:86-99 | laying out twice for the same container size equals laying out once |
| LayoutCoordinator.LayoutDependsOnSizesOnly | extensions/al-quran/al_quran.cc:86-99 | reciter bounds, reader size and a visible bar's bounds depend only on (w, h), the reciter's size and the bar's visibility |
| LayoutCoordinator.Example800x600 | extensions/al-quran/al_quran.cc:86-99 | 800 x 600 with a 400 x 150 reciter and a visible bar: reciter (200,450,400,150), bar (600,0,200,450), reader (0,0,600,450) |
| SyncCoordinator.OnChapterChangedReciter | extensions/al-quran/al_quran.cc:113-118 | a present reader takes the chapter and nothing else of it changes; the reciter, bar and settings are untouched; a null reader means no change at all |
| SyncCoordinator.OnVerseRangeChangedReciter | extensions/al-quran/al_quran.cc:120-125 | a present reader takes (from, to) unvalidated, keeping chapter and current verse; the reciter is untouched; a null reader means no change |
| SyncCoordinator.OnChapterChangedReader | extensions/al-quran/al_quran.cc:127-132 | a present reciter takes the chapter and nothing else of it changes; the reader is untouched; a null reciter means no change |
| SyncCoordinator.OnVerseRangeChangedReader | extensions/al-quran/al_quran.cc:134-139 | a present reciter takes (from, to) unvalidated; the reader is untouched; a null reciter means no change |
| SyncCoordinator.OnSelectedVerseChangedReciter | extensions/al-quran/al_quran.cc:141-148 | a present reader whose verse differs gets exactly one highlight of that verse appended; an equal verse or a null reader leaves the state unchanged; the reciter is untouched |
| SyncCoordinator.OnSelectedVerseChangedReader | extensions/al-quran/al_quran.cc:150-155 | a present reciter is set to the verse with no equality check; the reader is untouched; a null reciter means no change |
| SyncCoordinator.OnBookmarkChanged | extensions/al-quran/al_quran.cc:157-161 | the reader, which must exist, ends at the bookmark's chapter and (verseFrom, verseTo) as given, keeping its current verse; the reciter is not touched |
| SyncCoordinator.ChapterAndRangeEchoSettle | extensions/al-quran/al_quran.cc:113-139 | forwarding a chapter or range back to the view it came from changes nothing, in both directions |
| SyncCoordinator.ReaderVerseEchoSettles | extensions/al-quran/al_quran.cc:141-155 | a verse from the reader, echoed back by the reciter, adds no highlight |
| SyncCoordinator.VerseForwardingAsymmetric | extensions/al-quran/al_quran.cc:141-155 | a reciter verse adds a highlight iff the reader's verse differs; a reader verse always lands on the reciter |
| SyncCoordinator.BookmarkReachesReciterThroughReader | extensions/al-quran/al_quran.cc:127-161 | if the reader reports the bookmark's chapter and range, both views end at the bookmark's chapter and range |
| VisibilityController.ToggleReciter | extensions/al-quran/al_quran.cc:163-169 | only the reciter's visibility changes (no bounds) and "show_reciter" is stored as the value |
| VisibilityController.ToggleReader | extensions/al-quran/al_quran.cc:171-186 | reader visibility becomes the value, "show_reader" is stored, all three reciter pickers are shown iff the value is false, nothing else changes |
| VisibilityController.ToggleBookmarkBar | extensions/al-quran/al_quran.cc:188-195 | bar visibility becomes the value and "show_bookmarks" is stored; the layout is redone with it: the reciter gets exactly the bounds the layout gives it, the bar gets the strip or keeps its bounds, and the reader is resized to (w - 200 or w, h - reciterHeight) with its position, visibility, verse position and highlight log kept; picker coupling is kept |
| VisibilityController.CreateViews | extensions/al-quran/al_quran.cc:38-54 | the given new views replace the old ones and all three reciter pickers are hidden before the menu is set up; settings untouched |
| VisibilityController.InitializeMenu | extensions/al-quran/al_quran.cc:64-84 | each view shows its stored flag (default true), all three flags are stored and no other key changes, the pickers are coupled to the reader, the reader's width fits the bar |
| VisibilityController.Initialize | extensions/al-quran/al_quran.cc:29-62 | after start-up all views exist, show their stored flags, keep their positions, the pickers are coupled and the reader fills the width left by the bar and the height above the reciter |
| VisibilityController.TogglesIdempotent | extensions/al-quran/al_quran.cc:163-195 | applying any toggle twice with the same value equals applying it once |
| VisibilityController.ToggleSurvivesRestart | extensions/al-quran/al_quran.cc:64-84 | a session started with the settings a toggle stored shows that toggle's value |
| VisibilityController.InitializeMenuStable | extensions/al-quran/al_quran.cc:64-84 | the menu set-up applied to its own result changes nothing |
| VisibilityController.ForcedLayoutRedundant | extensions/al-quran/al_quran.cc:57-60 | the layout forced at the end of start-up leaves the state the menu set-up produced |
| EventTrace.Step | extensions/al-quran/al_quran.cc:86-195 | every handler keeps the views constructed, keeps the reciter's size and keeps the pickers coupled to the reader |
| EventTrace.Run | extensions/al-quran/al_quran.cc:86-195 | after any sequence of events the views still exist and the reciter keeps its size |
| EventTrace.CoupledAlongTrace | extensions/al-quran/al_quran.cc:171-186 | once coupled, the reciter's pickers stay shown exactly when the reader is hidden through any sequence of events |
| EventTrace.SyncTraceKeepsPresentation | extensions/al-quran/al_quran.cc:113-161 | position traffic alone never changes visibility, bounds, pickers, the bar or the settings |
| EventTrace.BoundsChangeOnlyOnLayout | extensions/al-quran/al_quran.cc:163-195 | without a geometry change or bookmark toggle no view's bounds change |
| EventTrace.HighlightsOnlyGrow | extensions/al-quran/al_quran.cc:141-148 | the reader's highlight log only ever grows at its end |
| AlQuranExtension.AlQuran.constructor | extensions/al-quran/al_quran.cc:18-23 | all three views start null |
| AlQuranExtension.AlQuran.Initialize | extensions/al-quran/al_quran.cc:29-62 | returns false and changes nothing if the host's initialisation fails, else leaves the state `VisibilityController.Initialize` describes |
| AlQuranExtension.AlQuran.InitializeMenu | extensions/al-quran/al_quran.cc:64-84 | leaves the state `VisibilityController.InitializeMenu` describes |
| AlQuranExtension.AlQuran.OnContainerGeometryChanged | extensions/al-quran/al_quran.cc:86-99 | leaves the state `LayoutCoordinator.OnContainerGeometryChanged` describes |
| AlQuranExtension.AlQuran.OnChapterChangedReciter | extensions/al-quran/al_quran.cc:113-118 | leaves the state the matching routing function describes |
| AlQuranExtension.AlQuran.OnVerseRangeChangedReciter | extensions/al-quran/al_quran.cc:120-125 | leaves the state the matching routing function describes |
| AlQuranExtension.AlQuran.OnChapterChangedReader | extensions/al-quran/al_quran.cc:127-132 | leaves the state the matching routing function describes |
| AlQuranExtension.AlQuran.OnVerseRangeChangedReader | extensions/al-quran/al_quran.cc:134-139 | leaves the state the matching routing function describes |
| AlQuranExtension.AlQuran.OnSelectedVerseChangedReciter | extensions/al-quran/al_quran.cc:141-148 | leaves the state the matching routing function describes |
| AlQuranExtension.AlQuran.OnSelectedVerseChangedReader | extensions/al-quran/al_quran.cc:150-155 | leaves the state the matching routing function describes |
| AlQuranExtension.AlQuran.OnBookmarkChanged | extensions/al-quran/al_quran.cc:157-161 | requires a reader; leaves the state `SyncCoordinator.OnBookmarkChanged` describes |
| AlQuranExtension.AlQuran.ToggleReciter | extensions/al-quran/al_quran.cc:163-169 | returns the value and leaves the state `VisibilityController.ToggleReciter` describes |
| AlQuranExtension.AlQuran.ToggleReader | extensions/al-quran/al_quran.cc:171-186 | returns the value and leaves the state `VisibilityController.ToggleReader` describes |
| AlQuranExtension.AlQuran.ToggleBookmarkBar | extensions/al-quran/al_quran.cc:188-195 | returns the value and leaves the state `VisibilityController.ToggleBookmarkBar` describes |

## Left out

- Signal/slot connections (al_quran.cc:46-55, 68, 74, 80): handlers are called directly; `EventTrace.Step` plays the dispatcher.
- Menu and action creation and `setChecked` (al_quran.cc:64-84): only the toggle calls are modelled; the second toggle call a checked action can trigger is covered by `VisibilityController.TogglesIdempotent`.
- `onActivated` (empty) and `onDeactivated` (stops audio playback): audio is outside the model.
- Construction of the views from the data holder (al_quran.cc:39-42, 54): the freshly constructed views are parameters; so is the result of the host's own `initialize`.
- Container size queries (`container()->width()`, `containerWidth()`): passed in as `(w, h)`; `Initialize` assumes both queries report the same size.
- The views' own mutators (`changeChapter`, `changeVerseRange`, `changeVerse`, `highlightVerse`) live in quran_reader and quran_reciter, which are not part of this model: the first three set the matching position field, `highlightVerse` appends to a log, and whether any of them re-emits a change signal, clamps values or moves the reader's current verse is not modelled.
- Qt widget semantics: `resize` clamping to minimum/maximum sizes, `isVisible` depending on ancestors; the model stores the requested sizes and the widget's own flag.
- 32-bit `int` overflow in the layout arithmetic: sizes are unbounded integers.
- Logging, the extension-info strings, `memory::turnToNullPtr`/`deleteAll` (modelled only as slots set to `None`), the `BookmarksBar` widget's interface and stored bookmarks, and the chapter-name conversions (a chapter is an opaque integer).

