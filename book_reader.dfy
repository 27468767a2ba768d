/**
 * The sample-chapter reader on the landing page: an index into the sample's
 * chapters, moved one chapter at a time by the arrow buttons or set directly from
 * the table of contents, and always naming an existing chapter.
 */
module BookReader {

  /** The sample ships three chapters. */
  const SampleChapterCount: nat := 3

  /** nextChapter: one chapter on, unless already at the last one. */
  function NextIndex(i: int, count: nat): (j: int)
    ensures j == i + 1 <==> i < count - 1
    ensures j != i + 1 ==> j == i
  {
    if i < count - 1 then i + 1 else i
  }

  /** prevChapter: one chapter back, unless already at the first one. */
  function PrevIndex(i: int): (j: int)
    ensures j == i - 1 <==> i > 0
    ensures j != i - 1 ==> j == i
  {
    if i > 0 then i - 1 else i
  }

  predicate InBounds(i: int, count: nat) {
    0 <= i < count
  }

  /** Both steps keep the index on an existing chapter. */
  lemma StepsStayInBounds(i: int, count: nat)
    requires InBounds(i, count)
    ensures InBounds(NextIndex(i, count), count) && InBounds(PrevIndex(i), count)
  {
  }

  /** A button is disabled exactly when pressing it would change nothing. */
  lemma DisabledIffNoOp(i: int, count: nat)
    requires InBounds(i, count)
    ensures i == 0 <==> PrevIndex(i) == i
    ensures i == count - 1 <==> NextIndex(i, count) == i
  {
  }

  /** Moving on and back, away from the last chapter, returns to the same one. */
  lemma StepsUndo(i: int, count: nat)
    requires InBounds(i, count)
    ensures i < count - 1 ==> PrevIndex(NextIndex(i, count)) == i
    ensures i > 0 ==> NextIndex(PrevIndex(i), count) == i
  {
  }

  /**
   * On the shipped sample, two presses of the forward arrow from the first chapter
   * reach the last one, where a further press does nothing.
   */
  lemma ShippedSampleWalk()
    ensures NextIndex(NextIndex(0, SampleChapterCount), SampleChapterCount) == SampleChapterCount - 1
    ensures NextIndex(SampleChapterCount - 1, SampleChapterCount) == SampleChapterCount - 1
  {
  }

  /** The component's state: the number of chapters and the current index. */
  class SampleReader {
    const count: nat
    var currentChapter: int

    /** The current chapter exists. */
    predicate Valid()
      reads this
    {
      InBounds(currentChapter, count)
    }

    /** Mounting: the first chapter; the page reads it, so there must be one. */
    constructor (count: nat)
      requires count > 0
      ensures Valid() && this.count == count && currentChapter == 0
    {
      this.count := count;
      currentChapter := 0;
    }

    predicate PrevDisabled()
      reads this
    {
      currentChapter == 0
    }

    predicate NextDisabled()
      reads this
    {
      currentChapter == count - 1
    }

    method NextChapter()
      requires Valid()
      modifies this`currentChapter
      ensures Valid() && currentChapter == NextIndex(old(currentChapter), count)
    {
      if currentChapter < count - 1 {
        currentChapter := currentChapter + 1;
      }
    }

    method PrevChapter()
      requires Valid()
      modifies this`currentChapter
      ensures Valid() && currentChapter == PrevIndex(old(currentChapter))
    {
      if currentChapter > 0 {
        currentChapter := currentChapter - 1;
      }
    }

    /** A click on the k-th table-of-contents entry. */
    method SelectFromToc(k: int)
      requires Valid() && InBounds(k, count)
      modifies this`currentChapter
      ensures Valid() && currentChapter == k
    {
      currentChapter := k;
    }
  }

  /** The landing page mounts the reader on the shipped sample: first chapter, back arrow disabled. */
  method MountSample() returns (r: SampleReader)
    ensures fresh(r) && r.Valid() && r.count == SampleChapterCount && r.currentChapter == 0
    ensures r.PrevDisabled() && !r.NextDisabled()
  {
    r := new SampleReader(SampleChapterCount);
  }
}
