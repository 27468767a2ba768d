/**
 * The current-chapter hook: what the player knows about the chapter being played
 * (its neighbours, its position in the catalog) and the three navigation callbacks.
 *
 * The hook reads `currentChapter`, `setCurrentChapter` and `playChapter` from the
 * player store, but the store declares none of them. The model therefore takes the
 * current chapter as an input and records WHICH store operation a callback calls
 * and with which chapter, without giving those operations any effect.
 */
module UseCurrentChapter {
  import opened Js
  import opened AudiobookChapters

  /** A call the hook makes into the store. */
  datatype ChapterCall = PlayChapter(chapter: AudioChapter) | SetCurrentChapter(chapter: AudioChapter)

  /** `nextChapter`: null without a current chapter, otherwise getNextChapter of its id. */
  function NextChapter(chapter: Option<AudioChapter>): (n: Option<AudioChapter>)
    ensures n.Some? ==> chapter.Some? && n.value.id == chapter.value.id + 1
  {
    if chapter.None? then None
    else
      ShippedNext(chapter.value.id);
      GetNextChapter(chapter.value.id)
  }

  /** `previousChapter`: null without a current chapter, otherwise getPreviousChapter of its id. */
  function PreviousChapter(chapter: Option<AudioChapter>): (p: Option<AudioChapter>)
    ensures p.Some? ==> chapter.Some? && p.value.id == chapter.value.id - 1
  {
    if chapter.None? then None
    else
      ShippedPrevious(chapter.value.id);
      GetPreviousChapter(chapter.value.id)
  }

  predicate HasNext(chapter: Option<AudioChapter>) {
    NextChapter(chapter).Some?
  }

  predicate HasPrevious(chapter: Option<AudioChapter>) {
    PreviousChapter(chapter).Some?
  }

  /** `totalChapters`: the length of the catalog. */
  function TotalChapters(): (n: int)
    ensures n == 25
  {
    ShippedIds();
    |Chapters|
  }

  /** `currentChapterIndex`: -1 without a current chapter, otherwise findIndex of its id. */
  function CurrentChapterIndex(chapter: Option<AudioChapter>): (i: int)
    ensures -1 <= i < 25
    ensures i == if chapter.Some? && 1 <= chapter.value.id <= 25 then chapter.value.id - 1 else -1
  {
    if chapter.None? then -1
    else
      ShippedIndex(chapter.value.id);
      FindIndex(Chapters, chapter.value.id)
  }

  /**
   * The routing every navigation callback shares: nothing without a target,
   * otherwise `playChapter` when already playing and `setCurrentChapter` when not.
   */
  function Route(target: Option<AudioChapter>, isPlaying: bool): (call: Option<ChapterCall>)
    ensures call.None? <==> target.None?
    ensures call.Some? ==> call.value.chapter == target.value
    ensures call.Some? ==> (call.value.PlayChapter? <==> isPlaying)
  {
    match target
    case None => None
    case Some(c) => Some(if isPlaying then PlayChapter(c) else SetCurrentChapter(c))
  }

  /** The next chapter is the catalog entry after the current chapter's position, none at the end. */
  lemma NextByIndex(chapter: Option<AudioChapter>)
    ensures var i := CurrentChapterIndex(chapter);
      NextChapter(chapter) == if i != -1 && i < TotalChapters() - 1 then Some(Chapters[i + 1]) else None
  {
    if chapter.Some? {
      ShippedNext(chapter.value.id);
    }
  }

  /** The previous chapter is the catalog entry before the current chapter's position, none at the start. */
  lemma PreviousByIndex(chapter: Option<AudioChapter>)
    ensures var i := CurrentChapterIndex(chapter);
      PreviousChapter(chapter) == if i > 0 then Some(Chapters[i - 1]) else None
  {
    if chapter.Some? {
      ShippedPrevious(chapter.value.id);
    }
  }

  /** hasNext holds exactly before the last chapter of the catalog. */
  lemma HasNextIff(chapter: Option<AudioChapter>)
    ensures HasNext(chapter) <==> 0 <= CurrentChapterIndex(chapter) < TotalChapters() - 1
  {
    NextByIndex(chapter);
  }

  /** hasPrevious holds exactly after the first chapter of the catalog. */
  lemma HasPreviousIff(chapter: Option<AudioChapter>)
    ensures HasPrevious(chapter) <==> CurrentChapterIndex(chapter) > 0
  {
    PreviousByIndex(chapter);
  }

  /** For a catalog chapter, going to the next chapter and then back lands on it again. */
  lemma NextThenPreviousChapter(k: int)
    requires 0 <= k < TotalChapters() - 1
    ensures NextChapter(Some(Chapters[k])) == Some(Chapters[k + 1])
    ensures PreviousChapter(NextChapter(Some(Chapters[k]))) == Some(Chapters[k])
  {
    ShippedIds();
    ShippedNext(k + 1);
    ShippedPrevious(k + 2);
  }

  /** goToChapter finds a target exactly for the ids in the catalog. */
  lemma GoToChapterTargets(chapterId: int, isPlaying: bool)
    ensures Route(Find(Chapters, chapterId), isPlaying).Some? <==> 1 <= chapterId <= TotalChapters()
  {
    ShippedIndex(chapterId);
  }

  /**
   * The hook's view of the store: the current chapter and the playing flag it reads,
   * and the log of calls it has made into the store.
   */
  class ChapterNavigator {
    const chapter: Option<AudioChapter>
    const isPlaying: bool
    var calls: seq<ChapterCall>

    constructor (chapter: Option<AudioChapter>, isPlaying: bool)
      ensures this.chapter == chapter && this.isPlaying == isPlaying && calls == []
    {
      this.chapter := chapter;
      this.isPlaying := isPlaying;
      calls := [];
    }

    /** Appends the call of a routing, if there is one. */
    method Issue(call: Option<ChapterCall>)
      modifies this
      ensures calls == old(calls) + (if call.Some? then [call.value] else [])
    {
      if call.Some? {
        calls := calls + [call.value];
      }
    }

    /** goToNextChapter. */
    method GoToNextChapter()
      modifies this
      ensures calls == old(calls) + (if HasNext(chapter) then [Route(NextChapter(chapter), isPlaying).value] else [])
    {
      Issue(Route(NextChapter(chapter), isPlaying));
    }

    /** goToPreviousChapter. */
    method GoToPreviousChapter()
      modifies this
      ensures calls == old(calls) + (if HasPrevious(chapter) then [Route(PreviousChapter(chapter), isPlaying).value] else [])
    {
      Issue(Route(PreviousChapter(chapter), isPlaying));
    }

    /** goToChapter: the catalog entry with that id, routed the same way. */
    method GoToChapter(chapterId: int)
      modifies this
      ensures calls == old(calls) + (if 1 <= chapterId <= TotalChapters() then [Route(Some(Chapters[chapterId - 1]), isPlaying).value] else [])
    {
      ShippedIndex(chapterId);
      Issue(Route(Find(Chapters, chapterId), isPlaying));
    }
  }
}
