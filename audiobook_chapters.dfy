/**
 * The audiobook's chapter catalog: the book's metadata and a read-only, ordered
 * array of chapters, each with its own audio file and cover, and the lookups by
 * id that the player uses to move between chapters.
 *
 * Chapter ids are JavaScript numbers compared with `===`; the model takes them as
 * integers, which is all the catalog holds.
 */
module AudiobookChapters {
  import opened Js

  datatype AudioChapter = AudioChapter(
    id: int, title: string, description: string, audioUrl: string, coverImage: string)

  datatype AudiobookData = AudiobookData(
    title: string, author: string, coverImage: string, chapters: seq<AudioChapter>)

  /** The shipped chapter with this id; the array lists them in id order. */
  function ChapterAt(id: int): (c: AudioChapter)
    requires 1 <= id <= 25
    ensures c.id == id
  {
    AudioChapter(id, ChapterTitle(id), ChapterDescription(id), ChapterAudioUrl(id), ChapterCover(id))
  }

  /** The title of each chapter. */
  function ChapterTitle(id: int): string
    requires 1 <= id <= 25
  {
    match id
    case 1 => "Pre-Word"
    case 2 => "Vision and Implications of Decentralisation for Network States"
    case 3 => "The Underlying Principles"
    case 4 => "The Perfect Storm"
    case 5 => "Game Theory of Network Attacks"
    case 6 => "Attack Vectors"
    case 7 => "Defense Mechanisms"
    case 8 => "Social Consensus"
    case 9 => "Technical Stack for Censorship Resistance"
    case 10 => "Proof of Work vs Delegated Proof of Stake"
    case 11 => "The Role of Witnesses"
    case 12 => "Governance Without Central Authority"
    case 13 => "Economic Incentives"
    case 14 => "The Steem Takeover Attempt"
    case 15 => "The Birth of Hive"
    case 16 => "Community Resilience"
    case 17 => "Digital Rights and Freedom"
    case 18 => "Building Network States"
    case 19 => "The Role of DHF (Decentralized Hive Fund)"
    case 20 => "Layer 2 Solutions and Scalability"
    case 21 => "The Future of Decentralized Social Media"
    case 22 => "Practical Implementation Guide"
    case 23 => "Common Pitfalls and How to Avoid Them"
    case 24 => "Conclusion and Call to Action"
    case 25 => "Epilogue: The Path Forward"
  }

  /** The description of each chapter. */
  function ChapterDescription(id: int): string
    requires 1 <= id <= 25
  {
    match id
    case 1 => "The legacy economic system only responds to legitimate parallel competition that treats people better."
    case 2 => "A peaceful way to opt out of oppressive legacy economic systems."
    case 3 => "When it comes to digital freedom, principles matter most, economy is counter-intuitive second."
    case 4 => "How unique circumstances and freak events led to true decentralization."
    case 5 => "Understanding the strategic dynamics of attacks on decentralized networks."
    case 6 => "Identifying potential vulnerabilities and points of failure in blockchain systems."
    case 7 => "Strategies and techniques to protect against network attacks and maintain integrity."
    case 8 => "The power of community agreement in maintaining decentralized governance."
    case 9 => "Building the infrastructure necessary for true freedom of expression."
    case 10 => "Comparing consensus mechanisms and their implications for decentralization."
    case 11 => "How block producers maintain network security and community trust."
    case 12 => "Creating effective decision-making processes in decentralized systems."
    case 13 => "Aligning individual interests with network health through tokenomics."
    case 14 => "Lessons learned from one of blockchain's most significant governance battles."
    case 15 => "How community resilience led to the creation of a truly decentralized blockchain."
    case 16 => "Building social structures that can withstand external pressures and attacks."
    case 17 => "Protecting individual liberties in the age of blockchain technology."
    case 18 => "Practical steps for creating autonomous digital communities and governance."
    case 19 => "Community-driven funding for development and growth initiatives."
    case 20 => "Expanding network capacity while maintaining decentralization principles."
    case 21 => "How blockchain technology is reshaping online communication and content creation."
    case 22 => "Step-by-step approach to building and maintaining decentralized systems."
    case 23 => "Learning from mistakes to build stronger decentralized communities."
    case 24 => "Taking the principles forward and building the decentralized future together."
    case 25 => "Final reflections on the journey towards true decentralization and digital sovereignty."
  }

  /** Where each chapter's audio is served from. */
  function ChapterAudioUrl(id: int): string
    requires 1 <= id <= 25
  {
    match id
    case 1 => "https://ebookcdn.tcmd-spkcc.com/chapter1.mp3"
    case 2 => "https://ebookcdn.tcmd-spkcc.com/chapter2.mp3"
    case 3 => "https://ebookcdn.tcmd-spkcc.com/chapter3.mp3"
    case 4 => "https://ebookcdn.tcmd-spkcc.com/chapter4.mp3"
    case 5 => "https://ebookcdn.tcmd-spkcc.com/chapter5.mp3"
    case 6 => "https://ebookcdn.tcmd-spkcc.com/chapter6.mp3"
    case 7 => "https://ebookcdn.tcmd-spkcc.com/chapter7.mp3"
    case 8 => "https://ebookcdn.tcmd-spkcc.com/chapter8.mp3"
    case 9 => "https://ebookcdn.tcmd-spkcc.com/chapter9.mp3"
    case 10 => "https://ebookcdn.tcmd-spkcc.com/chapter10.mp3"
    case 11 => "https://ebookcdn.tcmd-spkcc.com/chapter11.mp3"
    case 12 => "https://ebookcdn.tcmd-spkcc.com/chapter12.mp3"
    case 13 => "https://ebookcdn.tcmd-spkcc.com/chapter13.mp3"
    case 14 => "https://ebookcdn.tcmd-spkcc.com/chapter14.mp3"
    case 15 => "https://ebookcdn.tcmd-spkcc.com/chapter15.mp3"
    case 16 => "https://ebookcdn.tcmd-spkcc.com/chapter16.mp3"
    case 17 => "https://ebookcdn.tcmd-spkcc.com/chapter17.mp3"
    case 18 => "https://ebookcdn.tcmd-spkcc.com/chapter18.mp3"
    case 19 => "https://ebookcdn.tcmd-spkcc.com/chapter19.mp3"
    case 20 => "https://ebookcdn.tcmd-spkcc.com/chapter20.mp3"
    case 21 => "https://ebookcdn.tcmd-spkcc.com/chapter21.mp3"
    case 22 => "https://ebookcdn.tcmd-spkcc.com/chapter22.mp3"
    case 23 => "https://ebookcdn.tcmd-spkcc.com/chapter23.mp3"
    case 24 => "https://ebookcdn.tcmd-spkcc.com/chapter24.mp3"
    case 25 => "https://ebookcdn.tcmd-spkcc.com/chapter25.mp3"
  }

  /** The cover image of each chapter. */
  function ChapterCover(id: int): string
    requires 1 <= id <= 25
  {
    match id
    case 1 => "/chapters/chapter1.jpg"
    case 2 => "/chapters/chapter2.jpg"
    case 3 => "/chapters/chapter3.jpg"
    case 4 => "/chapters/chapter4.jpg"
    case 5 => "/chapters/chapter5.jpg"
    case 6 => "/chapters/chapter6.jpg"
    case 7 => "/chapters/chapter7.jpg"
    case 8 => "/chapters/chapter8.jpg"
    case 9 => "/chapters/chapter9.jpg"
    case 10 => "/chapters/chapter10.jpg"
    case 11 => "/chapters/chapter11.jpg"
    case 12 => "/chapters/chapter12.jpg"
    case 13 => "/chapters/chapter13.jpg"
    case 14 => "/chapters/chapter14.jpg"
    case 15 => "/chapters/chapter15.jpg"
    case 16 => "/chapters/chapter16.jpg"
    case 17 => "/chapters/chapter17.jpg"
    case 18 => "/chapters/chapter18.jpg"
    case 19 => "/chapters/chapter19.jpg"
    case 20 => "/chapters/chapter20.jpg"
    case 21 => "/chapters/chapter21.jpg"
    case 22 => "/chapters/chapter22.jpg"
    case 23 => "/chapters/chapter23.jpg"
    case 24 => "/chapters/chapter24.jpg"
    case 25 => "/chapters/chapter25.jpg"
  }

  /** The shipped chapter array. */
  const Chapters: seq<AudioChapter> := Catalog()

  /** The chapter array, built entry by entry: 25 chapters numbered 1 to 25 in array order. */
  function Catalog(): (cs: seq<AudioChapter>)
    ensures |cs| == 25
    ensures forall k :: 0 <= k < |cs| ==> cs[k].id == k + 1
  {
    seq(25, i requires 0 <= i < 25 => ChapterAt(i + 1))
  }

  /** The shipped audiobook. */
  const Audiobook: AudiobookData := AudiobookData(
    "The Digital Community Manifesto",
    "@theycallmedan & @starkerz",
    "/book-cover.jpg",
    Chapters)

  /** No two chapters share an id. */
  predicate UniqueIds(cs: seq<AudioChapter>) {
    forall i, j :: 0 <= i < j < |cs| ==> cs[i].id != cs[j].id
  }

  /** Array.prototype.findIndex on the id: the first position holding `id`, or -1. */
  function FindIndex(cs: seq<AudioChapter>, id: int): (i: int)
    ensures -1 <= i < |cs|
    ensures i == -1 <==> forall k :: 0 <= k < |cs| ==> cs[k].id != id
    ensures i != -1 ==> cs[i].id == id && forall k :: 0 <= k < i ==> cs[k].id != id
  {
    if cs == [] then -1
    else if cs[0].id == id then 0
    else
      var j := FindIndex(cs[1..], id);
      if j == -1 then -1 else j + 1
  }

  /** Array.prototype.find on the id: the first chapter holding `id`, if any. */
  function Find(cs: seq<AudioChapter>, id: int): (c: Option<AudioChapter>)
    ensures c.Some? ==> c.value in cs && c.value.id == id
  {
    if cs == [] then None
    else if cs[0].id == id then Some(cs[0])
    else Find(cs[1..], id)
  }

  /** The chapter after the one holding `id`; none for an unknown id or the last chapter. */
  function NextIn(cs: seq<AudioChapter>, id: int): (c: Option<AudioChapter>)
  {
    var i := FindIndex(cs, id);
    if i == -1 || i == |cs| - 1 then None else Some(cs[i + 1])
  }

  /** The chapter before the one holding `id`; none for an unknown id or the first chapter. */
  function PreviousIn(cs: seq<AudioChapter>, id: int): (c: Option<AudioChapter>)
  {
    var i := FindIndex(cs, id);
    if i == -1 || i == 0 then None else Some(cs[i - 1])
  }

  /** getChapterById over the shipped catalog: the chapter at position id - 1, if any. */
  function GetChapterById(id: int): (c: Option<AudioChapter>)
  {
    Find(Chapters, id)
  }

  /** getNextChapter over the shipped catalog: the chapter numbered one higher, if any. */
  function GetNextChapter(currentId: int): (c: Option<AudioChapter>)
  {
    NextIn(Chapters, currentId)
  }

  /** getPreviousChapter over the shipped catalog: the chapter numbered one lower, if any. */
  function GetPreviousChapter(currentId: int): (c: Option<AudioChapter>)
  {
    PreviousIn(Chapters, currentId)
  }

  /** The three lookups over the shipped catalog: the chapter numbered id, id + 1 and id - 1, if any. */
  lemma ShippedLookups(id: int)
    ensures GetChapterById(id) == if 1 <= id <= |Chapters| then Some(Chapters[id - 1]) else None
    ensures GetNextChapter(id) == if 1 <= id < |Chapters| then Some(Chapters[id]) else None
    ensures GetPreviousChapter(id) == if 1 < id <= |Chapters| then Some(Chapters[id - 2]) else None
  {
    ShippedIndex(id);
    ShippedNext(id);
    ShippedPrevious(id);
  }

  /** getChapterById and findIndex over the shipped catalog: position id - 1 for the ids 1 to 25. */
  lemma ShippedIndex(id: int)
    ensures |Chapters| == 25
    ensures FindIndex(Chapters, id) == if 1 <= id <= 25 then id - 1 else -1
    ensures GetChapterById(id) == if 1 <= id <= 25 then Some(Chapters[id - 1]) else None
  {
    ShippedIds();
    OneBasedIndex(Chapters, id);
  }

  /** getNextChapter over the shipped catalog: the chapter numbered id + 1, up to 25. */
  lemma ShippedNext(id: int)
    ensures |Chapters| == 25
    ensures GetNextChapter(id) == if 1 <= id < 25 then Some(Chapters[id]) else None
    ensures 1 <= id < 25 ==> Chapters[id].id == id + 1
  {
    ShippedIds();
    OneBasedNeighbours(Chapters, id);
  }

  /** getPreviousChapter over the shipped catalog: the chapter numbered id - 1, down to 1. */
  lemma ShippedPrevious(id: int)
    ensures |Chapters| == 25
    ensures GetPreviousChapter(id) == if 1 < id <= 25 then Some(Chapters[id - 2]) else None
    ensures 1 < id <= 25 ==> Chapters[id - 2].id == id - 1
  {
    ShippedIds();
    OneBasedNeighbours(Chapters, id);
  }

  /** Chapter ids count from 1 in array order. */
  predicate OneBased(cs: seq<AudioChapter>) {
    forall i :: 0 <= i < |cs| ==> cs[i].id == i + 1
  }

  /** The shipped catalog has 25 chapters whose ids are 1..25 in array order. */
  lemma ShippedIds()
    ensures |Chapters| == 25 && OneBased(Chapters)
  {
  }

  /** In a catalog numbered from 1, an id sits one position before its value. */
  lemma OneBasedIndex(cs: seq<AudioChapter>, id: int)
    requires OneBased(cs)
    ensures FindIndex(cs, id) == if 1 <= id <= |cs| then id - 1 else -1
    ensures Find(cs, id) == if 1 <= id <= |cs| then Some(cs[id - 1]) else None
  {
    assert UniqueIds(cs);
    if 1 <= id <= |cs| {
      FindIndexOfMember(cs, id - 1);
    }
    FindMatchesFindIndex(cs, id);
  }

  /** In a catalog numbered from 1, the neighbours of id are the chapters numbered id + 1 and id - 1. */
  lemma OneBasedNeighbours(cs: seq<AudioChapter>, id: int)
    requires OneBased(cs)
    ensures NextIn(cs, id) == if 1 <= id < |cs| then Some(cs[id]) else None
    ensures PreviousIn(cs, id) == if 1 < id <= |cs| then Some(cs[id - 2]) else None
    ensures 1 <= id < |cs| ==> cs[id].id == id + 1
    ensures 1 < id <= |cs| ==> cs[id - 2].id == id - 1
  {
    OneBasedIndex(cs, id);
  }

  /** find and findIndex agree: find returns the element at the index findIndex reports. */
  lemma {:induction false} FindMatchesFindIndex(cs: seq<AudioChapter>, id: int)
    ensures Find(cs, id) == if FindIndex(cs, id) == -1 then None else Some(cs[FindIndex(cs, id)])
  {
    if cs != [] && cs[0].id != id {
      FindMatchesFindIndex(cs[1..], id);
    }
  }

  /** With unique ids, looking up a chapter's id finds that chapter's position. */
  lemma FindIndexOfMember(cs: seq<AudioChapter>, k: int)
    requires UniqueIds(cs) && 0 <= k < |cs|
    ensures FindIndex(cs, cs[k].id) == k
  {
  }

  /** Stepping forward and then back returns to the chapter, for every chapter but the last. */
  lemma NextThenPrevious(cs: seq<AudioChapter>, k: int)
    requires UniqueIds(cs) && 0 <= k < |cs| - 1
    ensures NextIn(cs, cs[k].id) == Some(cs[k + 1])
    ensures PreviousIn(cs, cs[k + 1].id) == Some(cs[k])
  {
    FindIndexOfMember(cs, k);
    FindIndexOfMember(cs, k + 1);
  }

  /** Stepping back and then forward returns to the chapter, for every chapter but the first. */
  lemma PreviousThenNext(cs: seq<AudioChapter>, k: int)
    requires UniqueIds(cs) && 0 < k < |cs|
    ensures PreviousIn(cs, cs[k].id) == Some(cs[k - 1])
    ensures NextIn(cs, cs[k - 1].id) == Some(cs[k])
  {
    FindIndexOfMember(cs, k);
    FindIndexOfMember(cs, k - 1);
  }


}
