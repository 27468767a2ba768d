/**
 * The audiobook page: it picks a first chapter on mount without starting playback,
 * derives the player's source, title and cover from the store's current chapter
 * with fallbacks to the book, lists the chapters and highlights the current one.
 *
 * The store's `currentChapter` slot, `setCurrentChapter` and `playChapter` are not
 * declared by the store module; the page's calls into them are recorded as
 * `ChapterCall`s instead of being given effects.
 */
module AudiobookClient {
  import opened Js
  import opened AudiobookChapters
  import opened UseCurrentChapter

  /** The store's current-chapter slot: the chapter, if any, and the audio URL it carries, if any. */
  datatype CurrentSlot = CurrentSlot(chapter: Option<AudioChapter>, audioUrl: Option<string>)

  /** The title the player shows when no chapter is current. */
  const FallbackTitle: string := "The Digital Community Manifesto"

  /** A string operand of `||`: undefined and "" are falsy. */
  predicate Present(s: Option<string>) {
    s.Some? && s.value != ""
  }

  /**
   * The mount effect: with no current chapter and a non-empty catalog, the first
   * chapter is selected, never played.
   */
  function MountSelection(slot: CurrentSlot): (call: Option<ChapterCall>)
    ensures call.Some? <==> slot.chapter.None?
    ensures call.Some? ==> call.value.SetCurrentChapter? && call.value.chapter.id == 1
  {
    if slot.chapter.None? && |Chapters| > 0 then Some(SetCurrentChapter(Chapters[0])) else None
  }

  /** The audio source: the slot's URL when present, else the first chapter's, else "". */
  function AudioSource(slot: CurrentSlot): (src: string)
    ensures Present(slot.audioUrl) ==> src == slot.audioUrl.value
    ensures !Present(slot.audioUrl) ==> src == Chapters[0].audioUrl
  {
    if Present(slot.audioUrl) then slot.audioUrl.value
    else if |Chapters| > 0 && Chapters[0].audioUrl != "" then Chapters[0].audioUrl
    else ""
  }

  /** The title handed to the player: the current chapter's, or the book's. */
  function PlayerTitle(slot: CurrentSlot): (t: string)
    ensures t != ""
    ensures slot.chapter.None? ==> t == FallbackTitle
    ensures slot.chapter.Some? && slot.chapter.value.title != "" ==> t == slot.chapter.value.title
  {
    if slot.chapter.Some? && slot.chapter.value.title != "" then slot.chapter.value.title
    else FallbackTitle
  }

  /** The author handed to the player: always the book's. */
  function PlayerAuthor(slot: CurrentSlot): (a: string)
    ensures a == Audiobook.author && a != ""
  {
    Audiobook.author
  }

  /** The cover handed to the player: the current chapter's, or the book's. */
  function PlayerCover(slot: CurrentSlot): (c: string)
    ensures c != ""
    ensures slot.chapter.None? ==> c == Audiobook.coverImage
    ensures slot.chapter.Some? && slot.chapter.value.coverImage != "" ==> c == slot.chapter.value.coverImage
  {
    if slot.chapter.Some? && slot.chapter.value.coverImage != "" then slot.chapter.value.coverImage
    else Audiobook.coverImage
  }

  /** A list row is highlighted when its id is the current chapter's. */
  predicate IsHighlighted(slot: CurrentSlot, row: AudioChapter) {
    slot.chapter.Some? && slot.chapter.value.id == row.id
  }

  /** The fallback title is the book's own title. */
  lemma FallbackIsBookTitle()
    ensures FallbackTitle == Audiobook.title
  {
  }

  /** The shipped first chapter has an audio file, so the source is never empty. */
  lemma AudioSourceNonEmpty(slot: CurrentSlot)
    ensures AudioSource(slot) != ""
  {
    assert Chapters[0] == ChapterAt(1);
  }

  /**
   * With unique ids at most one row is highlighted, and when the current chapter is
   * a catalog chapter exactly its row is.
   */
  lemma HighlightedRows(cs: seq<AudioChapter>, slot: CurrentSlot)
    requires UniqueIds(cs)
    ensures forall i, j :: 0 <= i < |cs| && 0 <= j < |cs| && IsHighlighted(slot, cs[i]) && IsHighlighted(slot, cs[j]) ==> i == j
    ensures forall i :: 0 <= i < |cs| && slot.chapter == Some(cs[i]) ==>
      forall j :: 0 <= j < |cs| ==> (IsHighlighted(slot, cs[j]) <==> j == i)
  {
    forall i, j | 0 <= i < |cs| && 0 <= j < |cs| && i != j
      ensures cs[i].id != cs[j].id
    {
      if j < i {
        assert cs[j].id != cs[i].id;
      }
    }
  }

  /** The shipped catalog: every row but the current chapter's is plain. */
  lemma ShippedHighlight(slot: CurrentSlot, k: int)
    requires 0 <= k < |Chapters| && slot.chapter == Some(Chapters[k])
    ensures forall j :: 0 <= j < |Chapters| ==> (IsHighlighted(slot, Chapters[j]) <==> j == k)
  {
    ShippedIds();
  }

  /** The page's view of the store: the slot it reads and the log of calls it has made. */
  class AudiobookPage {
    const slot: CurrentSlot
    var calls: seq<ChapterCall>

    constructor (slot: CurrentSlot)
      ensures this.slot == slot && calls == []
    {
      this.slot := slot;
      calls := [];
    }

    /** The mount effect: selects the first chapter when none is current. */
    method Mount()
      modifies this
      ensures calls == old(calls) + (if slot.chapter.None? then [SetCurrentChapter(Chapters[0])] else [])
    {
      var call := MountSelection(slot);
      if call.Some? {
        calls := calls + [call.value];
      }
    }

    /** A click on the k-th row of the chapter list plays that chapter. */
    method ClickChapter(k: int)
      requires 0 <= k < |Chapters|
      modifies this
      ensures calls == old(calls) + [PlayChapter(Chapters[k])]
    {
      calls := calls + [PlayChapter(Chapters[k])];
    }
  }
}
