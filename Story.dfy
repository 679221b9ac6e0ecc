/** The story section: the gate, the wrap-around chapter cursor driven by the
    arrows and the dots, and what the active chapter's visual shows. */
module Story {

  import opened Js

  /** One entry of `storyData.chapters`; every text field may be missing. */
  datatype Chapter = Chapter(
    title: Option<string>,
    year: Option<string>,
    content: Option<string>,
    image: Option<string>)

  datatype StoryData = StoryData(isRequired: Option<bool>, chapters: Option<seq<Chapter>>)

  /** The early return: the section renders only with data, `isRequired` not
      `false`, and at least one chapter. */
  predicate Renders(d: Option<StoryData>) {
    d.Some? && d.value.isRequired != Some(false)
    && d.value.chapters.Some? && |d.value.chapters.value| > 0
  }

  // ------------------------------------------------------------ navigation

  /** `handleNextChapter`'s update: `prev < len - 1 ? prev + 1 : 0`. */
  function NextIndex(i: int, len: nat): (r: int)
    ensures 0 <= i < len ==> 0 <= r < len && r == (i + 1) % len
  {
    if i < len - 1 then i + 1 else 0
  }

  /** `handlePrevChapter`'s update: `prev > 0 ? prev - 1 : len - 1`. */
  function PrevIndex(i: int, len: nat): (r: int)
    ensures 0 <= i < len ==> 0 <= r < len && r == (i - 1) % len
  {
    if i > 0 then i - 1 else len - 1
  }

  /** Going back after going forward returns to the same chapter. */
  lemma PrevAfterNext(i: int, len: nat)
    requires 0 <= i < len
    ensures PrevIndex(NextIndex(i, len), len) == i
  {
  }

  /** Going forward after going back returns to the same chapter. */
  lemma NextAfterPrev(i: int, len: nat)
    requires 0 <= i < len
    ensures NextIndex(PrevIndex(i, len), len) == i
  {
  }

  /** `k` presses of the next arrow. */
  function NextTimes(i: int, len: nat, k: nat): int {
    if k == 0 then i else NextIndex(NextTimes(i, len, k - 1), len)
  }

  /** `k` presses of the next arrow move the cursor `k` chapters forward, modulo the count. */
  lemma {:induction false} NextTimesIsModular(i: int, len: nat, k: nat)
    requires 0 <= i < len
    ensures NextTimes(i, len, k) == (i + k) % len
  {
    if k > 0 {
      NextTimesIsModular(i, len, k - 1);
      NextOfRemainder(i + k - 1, len);
    }
  }

  /** One step forward from the remainder of `a` is the remainder of `a + 1`. */
  lemma NextOfRemainder(a: int, len: nat)
    requires len > 0
    ensures NextIndex(a % len, len) == (a + 1) % len
  {
    var j := a % len;
    var q := a / len;
    var m := q * len;
    assert a == m + j;
    if j < len - 1 {
      ModOfDecomposition(a + 1, len, q, j + 1);
    } else {
      assert (q + 1) * len == m + len;
      ModOfDecomposition(a + 1, len, q + 1, 0);
    }
  }

  /** A multiple of `len` strictly between `-len` and `len` is zero. */
  lemma SmallMultiple(d: int, len: int)
    requires len > 0 && -len < d * len < len
    ensures d == 0
  {
  }

  /** The remainder is the one `r` in range with `x == q * len + r`. */
  lemma ModOfDecomposition(x: int, len: int, q: int, r: int)
    requires len > 0 && 0 <= r < len && x == q * len + r
    ensures x % len == r
  {
    var q', r' := x / len, x % len;
    assert x == q' * len + r';
    assert (q - q') * len == r' - r;
    SmallMultiple(q - q', len);
  }

  /** One full lap of the next arrow comes back to the starting chapter. */
  lemma NextLapIsIdentity(i: int, len: nat)
    requires 0 <= i < len
    ensures NextTimes(i, len, len) == i
  {
    NextTimesIsModular(i, len, len);
    ModOfDecomposition(i + len, len, 1, i);
  }

  /** The cursor over the chapters, as the section's state holds it. */
  class ChapterNavigator {
    const count: nat
    var activeChapter: int

    ghost predicate Valid()
      reads this
    {
      0 <= activeChapter < count
    }

    /** The section mounts on the first chapter. */
    constructor (count: nat)
      requires count > 0
      ensures Valid()
      ensures this.count == count && activeChapter == 0
    {
      this.count := count;
      activeChapter := 0;
    }

    /** `handleNextChapter`. */
    method HandleNextChapter()
      requires Valid()
      modifies this
      ensures Valid()
      ensures activeChapter == NextIndex(old(activeChapter), count)
      ensures activeChapter == (old(activeChapter) + 1) % count
    {
      activeChapter := if activeChapter < count - 1 then activeChapter + 1 else 0;
    }

    /** `handlePrevChapter`. */
    method HandlePrevChapter()
      requires Valid()
      modifies this
      ensures Valid()
      ensures activeChapter == PrevIndex(old(activeChapter), count)
      ensures activeChapter == (old(activeChapter) - 1) % count
    {
      activeChapter := if activeChapter > 0 then activeChapter - 1 else count - 1;
    }

    /** `handleChapterChange(index)`: the cursor jumps to `index`, whatever it is. */
    method HandleChapterChange(index: int)
      modifies this
      ensures activeChapter == index
    {
      activeChapter := index;
    }

    /** A click on a navigation dot: there is one dot per chapter, so the jump
        stays in range. */
    method ClickDot(index: int)
      requires Valid() && 0 <= index < count
      modifies this
      ensures Valid() && activeChapter == index
    {
      HandleChapterChange(index);
    }
  }

  // ------------------------------------------------------------ appearance

  /** The four gradient schemes, cycled through by chapter position. */
  const ColorSchemes: seq<string> := [
    "from-blue-500 to-purple-600",
    "from-purple-500 to-pink-600",
    "from-pink-500 to-red-600",
    "from-amber-500 to-orange-600"
  ]

  /** The placeholder's eight icons (only their count matters here). */
  const IconCount := 8

  /** The placeholder's four background patterns, in table order. */
  datatype Pattern = Geometric | Lines | Dots | Waves

  const Patterns: seq<Pattern> := [Geometric, Lines, Dots, Waves]

  /** `index % predefinedColors.length`: the scheme of the chapter at `index`. */
  function ColorIndex(index: nat): (c: nat)
    ensures c < |ColorSchemes|
    ensures c == index % 4
  {
    index % |ColorSchemes|
  }

  /** The placeholder's pattern, `patterns[colorIndex % patterns.length]`. */
  function PatternIndex(colorIndex: nat): (p: nat)
    ensures p < |Patterns|
  {
    colorIndex % |Patterns|
  }

  /** The placeholder's icon, `icons[colorIndex % icons.length]`. */
  function IconIndex(colorIndex: nat): (k: nat)
    ensures k < IconCount
  {
    colorIndex % IconCount
  }

  /** Since the colour index is already below 4, the pattern follows the colour
      one to one and only the first four of the eight icons can ever appear. */
  lemma PlaceholderIndicesFollowColor(active: nat)
    ensures PatternIndex(ColorIndex(active)) == ColorIndex(active)
    ensures IconIndex(ColorIndex(active)) == ColorIndex(active) < 4
    ensures Patterns[PatternIndex(ColorIndex(active))] == Patterns[active % 4]
  {
  }

  /** What the visual panel of the active chapter shows. */
  datatype Visual =
    | Picture(src: string, alt: Option<string>, overlay: string)
    | Placeholder(gradient: string, pattern: Pattern, iconIndex: nat, title: string, year: string)

  /** The image when the chapter has a non-blank one, the placeholder otherwise. */
  function ChapterVisual(ch: Chapter, active: nat): (v: Visual)
    ensures v.Picture? <==> Filled(ch.image)
    ensures v.Picture? ==>
      v.src == ch.image.value && v.alt == ch.title && v.overlay == ColorSchemes[active % 4]
    ensures v.Placeholder? ==>
      v.gradient == ColorSchemes[active % 4] && v.pattern == Patterns[active % 4]
      && v.iconIndex == active % 4
      && (Truthy(ch.title) ==> v.title == ch.title.value) && (!Truthy(ch.title) ==> v.title == "Chapter")
      && (Truthy(ch.year) ==> v.year == ch.year.value) && (!Truthy(ch.year) ==> v.year == "Story Chapter")
  {
    var c := ColorIndex(active);
    if Filled(ch.image) then Picture(ch.image.value, ch.title, ColorSchemes[c])
    else Placeholder(ColorSchemes[c], Patterns[PatternIndex(c)], IconIndex(c),
      OrElse(ch.title, "Chapter"), OrElse(ch.year, "Story Chapter"))
  }

  /** A chapter whose image is missing, empty or only white space gets the placeholder. */
  lemma BlankImageGetsPlaceholder(ch: Chapter, active: nat)
    requires ch.image.None? || forall i :: 0 <= i < |ch.image.value| ==> IsWhiteSpace(ch.image.value[i])
    ensures ChapterVisual(ch, active).Placeholder?
  {
    if ch.image.Some? {
      BlankIffAllWhiteSpace(ch.image.value);
    }
  }
}
