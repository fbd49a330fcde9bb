/** Forwarding of position changes between the reciter and the reader, and
    bookmark navigation. Each handler touches only the view that did NOT
    raise the change, and does nothing when that view is null. */
module SyncCoordinator {
  import opened Views

  /** The reciter changed chapter: the reader, if present, adopts it. */
  function OnChapterChangedReciter(s: Plugin, chapter: int): (r: Plugin)
    ensures r.reciter == s.reciter && r.bookmarkBar == s.bookmarkBar && r.settings == s.settings
    ensures s.reader.None? ==> r == s
    ensures s.reader.Some? ==> (r.reader.Some? &&
      var rd, rd' := s.reader.value, r.reader.value;
      rd'.at.chapter == chapter &&
      rd'.at.(chapter := rd.at.chapter) == rd.at &&
      rd'.(at := rd.at) == rd)
  {
    match s.reader
    case None => s
    case Some(rd) => s.(reader := Some(rd.(at := rd.at.(chapter := chapter))))
  }

  /** The reciter changed its verse range: the reader, if present, adopts it as given. */
  function OnVerseRangeChangedReciter(s: Plugin, from: int, to: int): (r: Plugin)
    ensures r.reciter == s.reciter && r.bookmarkBar == s.bookmarkBar && r.settings == s.settings
    ensures s.reader.None? ==> r == s
    ensures s.reader.Some? ==> (r.reader.Some? &&
      var rd, rd' := s.reader.value, r.reader.value;
      rd'.at.verseFrom == from && rd'.at.verseTo == to &&
      rd'.at.chapter == rd.at.chapter && rd'.at.currentVerse == rd.at.currentVerse &&
      rd'.(at := rd.at) == rd)
  {
    match s.reader
    case None => s
    case Some(rd) => s.(reader := Some(rd.(at := rd.at.(verseFrom := from, verseTo := to))))
  }

  /** The reader changed chapter: the reciter, if present, adopts it. */
  function OnChapterChangedReader(s: Plugin, chapter: int): (r: Plugin)
    ensures r.reader == s.reader && r.bookmarkBar == s.bookmarkBar && r.settings == s.settings
    ensures s.reciter.None? ==> r == s
    ensures s.reciter.Some? ==> (r.reciter.Some? &&
      var rc, rc' := s.reciter.value, r.reciter.value;
      rc'.at.chapter == chapter &&
      rc'.at.(chapter := rc.at.chapter) == rc.at &&
      rc'.(at := rc.at) == rc)
  {
    match s.reciter
    case None => s
    case Some(rc) => s.(reciter := Some(rc.(at := rc.at.(chapter := chapter))))
  }

  /** The reader changed its verse range: the reciter, if present, adopts it as given. */
  function OnVerseRangeChangedReader(s: Plugin, from: int, to: int): (r: Plugin)
    ensures r.reader == s.reader && r.bookmarkBar == s.bookmarkBar && r.settings == s.settings
    ensures s.reciter.None? ==> r == s
    ensures s.reciter.Some? ==> (r.reciter.Some? &&
      var rc, rc' := s.reciter.value, r.reciter.value;
      rc'.at.verseFrom == from && rc'.at.verseTo == to &&
      rc'.at.chapter == rc.at.chapter && rc'.at.currentVerse == rc.at.currentVerse &&
      rc'.(at := rc.at) == rc)
  {
    match s.reciter
    case None => s
    case Some(rc) => s.(reciter := Some(rc.(at := rc.at.(verseFrom := from, verseTo := to))))
  }

  /** The reciter moved to another verse: a present reader highlights it,
      but only when the reader's own current verse differs; an equal verse
      is a no-op. */
  function OnSelectedVerseChangedReciter(s: Plugin, verse: int): (r: Plugin)
    ensures r.reciter == s.reciter && r.bookmarkBar == s.bookmarkBar && r.settings == s.settings
    ensures s.reader.None? || s.reader.value.at.currentVerse == verse ==> r == s
    ensures s.reader.Some? && s.reader.value.at.currentVerse != verse ==> (r.reader.Some? &&
      var rd, rd' := s.reader.value, r.reader.value;
      rd'.highlighted == rd.highlighted + [verse] && rd'.(highlighted := rd.highlighted) == rd)
  {
    match s.reader
    case None => s
    case Some(rd) =>
      if rd.at.currentVerse != verse
      then s.(reader := Some(rd.(highlighted := rd.highlighted + [verse])))
      else s
  }

  /** The reader moved to another verse: a present reciter is sent to it
      unconditionally, with no equality check. */
  function OnSelectedVerseChangedReader(s: Plugin, index: int): (r: Plugin)
    ensures r.reader == s.reader && r.bookmarkBar == s.bookmarkBar && r.settings == s.settings
    ensures s.reciter.None? ==> r == s
    ensures s.reciter.Some? ==> (r.reciter.Some? &&
      var rc, rc' := s.reciter.value, r.reciter.value;
      rc'.at.currentVerse == index &&
      rc'.at.(currentVerse := rc.at.currentVerse) == rc.at &&
      rc'.(at := rc.at) == rc)
  {
    match s.reciter
    case None => s
    case Some(rc) => s.(reciter := Some(rc.(at := rc.at.(currentVerse := index))))
  }

  /** A bookmark was selected: the reader, which must exist, takes the
      bookmark's chapter and its verse range unvalidated (`verseFrom > verseTo`
      passes through). The reciter is not touched by this handler. */
  function OnBookmarkChanged(s: Plugin, b: Bookmark): (r: Plugin)
    requires s.reader.Some?
    ensures r.reciter == s.reciter && r.bookmarkBar == s.bookmarkBar && r.settings == s.settings
    ensures r.reader.Some? &&
      var rd, rd' := s.reader.value, r.reader.value;
      rd'.at == Position(b.chapter, b.verseFrom, b.verseTo, rd.at.currentVerse) &&
      rd'.(at := rd.at) == rd
  {
    var afterChapter := s.(reader := Some(s.reader.value.(at := s.reader.value.at.(chapter := b.chapter))));
    var rd := afterChapter.reader.value;
    afterChapter.(reader := Some(rd.(at := rd.at.(verseFrom := b.verseFrom, verseTo := b.verseTo))))
  }

  /** Chapter and range forwarding reaches a fixpoint of the state: once a
      change has been forwarded, forwarding the same value back leaves the
      state as it is, because the origin already holds that value. This is a
      statement about the state with the views' setters taken as plain field
      writes; whether those setters raise a new change report is not modelled. */
  lemma ChapterAndRangeEchoSettle(s: Plugin, chapter: int, from: int, to: int)
    ensures s.reciter.Some? && s.reciter.value.at.chapter == chapter ==>
      var r := OnChapterChangedReciter(s, chapter); OnChapterChangedReader(r, chapter) == r
    ensures s.reader.Some? && s.reader.value.at.chapter == chapter ==>
      var r := OnChapterChangedReader(s, chapter); OnChapterChangedReciter(r, chapter) == r
    ensures s.reciter.Some? && s.reciter.value.at.verseFrom == from && s.reciter.value.at.verseTo == to ==>
      var r := OnVerseRangeChangedReciter(s, from, to); OnVerseRangeChangedReader(r, from, to) == r
    ensures s.reader.Some? && s.reader.value.at.verseFrom == from && s.reader.value.at.verseTo == to ==>
      var r := OnVerseRangeChangedReader(s, from, to); OnVerseRangeChangedReciter(r, from, to) == r
  {
  }

  /** No echo on the current verse from the reader: the reciter is sent to
      the reader's verse, and the reciter's report of that verse back to the
      reader is stopped by the equality check (no highlight). */
  lemma ReaderVerseEchoSettles(s: Plugin, verse: int)
    requires s.reader.Some? && s.reader.value.at.currentVerse == verse
    ensures var r := OnSelectedVerseChangedReader(s, verse);
      OnSelectedVerseChangedReciter(r, verse) == r
  {
  }

  /** The asymmetry: a verse from the reciter adds a highlight exactly when
      the reader's verse differs, while a verse from the reader always lands
      on the reciter, even one it already holds. */
  lemma VerseForwardingAsymmetric(s: Plugin, verse: int)
    requires s.reader.Some? && s.reciter.Some?
    ensures |OnSelectedVerseChangedReciter(s, verse).reader.value.highlighted| == |s.reader.value.highlighted| + 1
        <==> s.reader.value.at.currentVerse != verse
    ensures OnSelectedVerseChangedReader(s, verse).reciter.value.at.currentVerse == verse
  {
  }

  /** Bookmark navigation reaches the reciter only through the reader: if the
      reader reports the chapter and range it was given, forwarding those
      reports leaves both views at the bookmark's chapter and range. */
  lemma BookmarkReachesReciterThroughReader(s: Plugin, b: Bookmark)
    requires s.reader.Some? && s.reciter.Some?
    ensures var r := OnVerseRangeChangedReader(
                       OnChapterChangedReader(OnBookmarkChanged(s, b), b.chapter), b.verseFrom, b.verseTo);
      r.reader.value.at.chapter == b.chapter && r.reciter.value.at.chapter == b.chapter &&
      r.reader.value.at.verseFrom == b.verseFrom && r.reciter.value.at.verseFrom == b.verseFrom &&
      r.reader.value.at.verseTo == b.verseTo && r.reciter.value.at.verseTo == b.verseTo
  {
  }
}
