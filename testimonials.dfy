/** The testimonial carousel: the shown slide (`activeIndex`), the
    animation key and direction (`currentIndex`, `direction`), the autoplay
    flag and the hovered star. Arrow buttons call NextSlide/PrevSlide,
    pagination dots call Navigate, and each firing of the 5-second
    autoplay interval is a call of Tick. */
module Testimonials {
  import opened Common

  datatype Testimonial = Testimonial(id: nat, name: string, company: string, rating: nat)

  const Testimonials := [
    Testimonial(1, "Alex Chen", "TechVision Inc.", 5),
    Testimonial(2, "Sophia Rodriguez", "InnovateSphere", 5),
    Testimonial(3, "David Park", "DataFlow Systems", 5)
  ]

  /** `testimonials.length` */
  const Count := |Testimonials|

  /** The number of rating stars drawn per testimonial. */
  const StarCount := 5

  predicate InRange(i: int) { 0 <= i < Count }

  /** `(i + 1) % testimonials.length`: the following slide, wrapping from
      the last to the first. */
  function NextIndex(i: int): (j: int)
    requires InRange(i)
    ensures InRange(j)
    ensures i < Count - 1 ==> j == i + 1
    ensures i == Count - 1 ==> j == 0
  {
    JsRem(i + 1, Count)
  }

  /** `(i - 1 + testimonials.length) % testimonials.length`: the preceding
      slide, wrapping from the first to the last. */
  function PrevIndex(i: int): (j: int)
    requires InRange(i)
    ensures InRange(j)
    ensures i > 0 ==> j == i - 1
    ensures i == 0 ==> j == Count - 1
  {
    JsRem(i - 1 + Count, Count)
  }

  /** Back after forward, and forward after back, return to the slide. */
  lemma NextPrevInverse(i: int)
    requires InRange(i)
    ensures PrevIndex(NextIndex(i)) == i
    ensures NextIndex(PrevIndex(i)) == i
  {
  }

  /** The slide-in direction of `navigate`: 1 only for a strictly larger
      target, -1 otherwise (also when the target equals the current key). */
  function NavigationDirection(target: int, current: int): (d: int)
    ensures d == 1 <==> target > current
    ensures d == -1 <==> target <= current
  {
    if target > current then 1 else -1
  }

  class Carousel {
    var activeIndex: int
    var autoplay: bool
    var hoveredRating: Option<int>
    var currentIndex: int
    var direction: int
    /** The animation key as seen by the running autoplay interval: its
        callback closes over the `navigate` of the render that installed
        it, and the effect reinstalls it only when `activeIndex` (or
        `autoplay`) changes. A dot click on the slide already shown moves
        `currentIndex` but keeps the old interval, and so this stale key. */
    var tickKey: int

    predicate Valid()
      reads this
    {
      InRange(activeIndex) && InRange(currentIndex) && InRange(tickKey) && -1 <= direction <= 1
    }

    constructor ()
      ensures Valid()
      ensures activeIndex == 0 && autoplay && hoveredRating == None
      ensures currentIndex == 0 && direction == 0 && tickKey == 0
    {
      activeIndex := 0;
      autoplay := true;
      hoveredRating := None;
      currentIndex := 0;
      direction := 0;
      tickKey := 0;
    }

    /** Arrow right: only the shown slide moves on; the interval is
        reinstalled and sees the current key. */
    method NextSlide()
      requires Valid()
      modifies this
      ensures Valid()
      ensures activeIndex == NextIndex(old(activeIndex))
      ensures currentIndex == old(currentIndex) && direction == old(direction)
      ensures tickKey == currentIndex
      ensures autoplay == old(autoplay) && hoveredRating == old(hoveredRating)
    {
      activeIndex := JsRem(activeIndex + 1, Count);
      tickKey := currentIndex;
    }

    /** Arrow left: only the shown slide moves back; the interval is
        reinstalled and sees the current key. */
    method PrevSlide()
      requires Valid()
      modifies this
      ensures Valid()
      ensures activeIndex == PrevIndex(old(activeIndex))
      ensures currentIndex == old(currentIndex) && direction == old(direction)
      ensures tickKey == currentIndex
      ensures autoplay == old(autoplay) && hoveredRating == old(hoveredRating)
    {
      activeIndex := JsRem(activeIndex - 1 + Count, Count);
      tickKey := currentIndex;
    }

    /** `navigate(k)` from a pagination dot, which always closes over the
        current render. The interval is reinstalled only when the shown
        slide changes. */
    method Navigate(k: int)
      requires Valid() && InRange(k)
      modifies this
      ensures Valid()
      ensures activeIndex == k && currentIndex == k
      ensures direction == NavigationDirection(k, old(currentIndex))
      ensures tickKey == if k != old(activeIndex) then k else old(tickKey)
      ensures autoplay == old(autoplay) && hoveredRating == old(hoveredRating)
    {
      var dir := if k > currentIndex then 1 else -1;
      if k != activeIndex {
        tickKey := k;
      }
      currentIndex, direction := k, dir;
      activeIndex := k;
    }

    /** One firing of the autoplay interval: `navigate` of the installing
        render, so the direction is taken against `tickKey`. The effect
        installs no interval when autoplay is off; nothing in the component
        turns it off, so in practice every tick navigates. */
    method Tick()
      requires Valid()
      modifies this
      ensures Valid()
      ensures old(autoplay) ==> activeIndex == currentIndex == tickKey == NextIndex(old(activeIndex))
      ensures old(autoplay) ==> direction == NavigationDirection(activeIndex, old(tickKey))
      ensures !old(autoplay) ==>
        activeIndex == old(activeIndex) && currentIndex == old(currentIndex)
        && direction == old(direction) && tickKey == old(tickKey)
      ensures autoplay == old(autoplay) && hoveredRating == old(hoveredRating)
    {
      if autoplay {
        var newIndex := JsRem(activeIndex + 1, Count);
        var dir := if newIndex > tickKey then 1 else -1;
        currentIndex, direction := newIndex, dir;
        activeIndex := newIndex;
        tickKey := newIndex;
      }
    }

    /** Mouse enters star `i`. */
    method HoverStar(i: nat)
      requires Valid() && i < StarCount
      modifies this`hoveredRating
      ensures hoveredRating == Some(i as int)
    {
      hoveredRating := Some(i);
    }

    /** Mouse leaves a star. */
    method LeaveStar()
      modifies this`hoveredRating
      ensures hoveredRating == None
    {
      hoveredRating := None;
    }
  }

  /** Clicking the dot of the slide already shown leaves the running
      interval with its old key: after going to slide 1, back one arrow
      and re-clicking dot 0, the next autoplay step moves forward from
      slide 0 to slide 1 yet slides in with direction -1, where a fresh
      `navigate(1)` would give 1. */
  method AutoplayAfterReclick() returns (shown: int, dir: int, freshDir: int)
    ensures shown == 1 && dir == -1 && freshDir == 1
  {
    var c := new Carousel();
    c.Navigate(1);
    c.PrevSlide();
    c.Navigate(0);
    freshDir := NavigationDirection(NextIndex(c.activeIndex), c.currentIndex);
    c.Tick();
    shown, dir := c.activeIndex, c.direction;
  }

  /** Autoplay only ever reads the constructed flag, so `Count` ticks from
      any slide bring the carousel back to it. */
  function NextN(i: int, k: nat): (j: int)
    requires InRange(i)
    ensures InRange(j)
  {
    if k == 0 then i else NextIndex(NextN(i, k - 1))
  }

  lemma {:induction false} FullCycle(i: int)
    requires InRange(i)
    ensures NextN(i, Count) == i
  {
    assert NextN(i, 1) == NextIndex(i);
    assert NextN(i, 2) == NextIndex(NextIndex(i));
  }

  // ---------------------------------------------------------------------
  // Render-time expressions

  const Gold := "text-cyber-gold"
  const Gray := "text-gray-500"

  /** The text between the two interpolations of the star's class
      template: a space, a line break and the next line's indentation. */
  const StarGap := " \n                              "

  /** The class attribute of star `i` of a testimonial with the given
      rating, as the template literal builds it. */
  function StarClassName(i: int, rating: int, hovered: Option<int>): string
  {
    "w-5 h-5 " + (if i < rating then Gold else Gray) + StarGap
      + (if hovered.Some? && i <= hovered.value then Gold else "")
  }

  /** The star template read as class names, for any colour class and
      any (possibly empty) extra class. */
  lemma StarTokens(base: string, extra: string)
    requires base != [] && NoSpace(base) && NoSpace(extra)
    ensures Tokens("w-5 h-5 " + base + StarGap + extra)
      == ["w-5", "h-5", base] + (if extra == "" then [] else [extra])
  {
    var w5, h5 := "w-5", "h-5";
    assert "w-5 h-5 " + base == w5 + " " + h5 + " " + base;
    assert w5 != [] && NoSpace(w5) && h5 != [] && NoSpace(h5);
    TokensOfThreeWords(w5, h5, base);
    assert AllSpace(StarGap);
    TokensJoin(w5 + " " + h5 + " " + base, StarGap, extra);
    if extra != "" {
      TokensWord(extra);
    }
  }

  /** The star's classes: fixed size, gold below the rating and gray from
      it on, plus a second gold class when the hovered star is at or after
      it. In particular it shows gold exactly in those two cases. */
  lemma StarClasses(i: int, rating: int, hovered: Option<int>)
    ensures Tokens(StarClassName(i, rating, hovered)) ==
      ["w-5", "h-5", if i < rating then Gold else Gray]
      + (if hovered.Some? && i <= hovered.value then [Gold] else [])
    ensures Gold in Tokens(StarClassName(i, rating, hovered))
      <==> i < rating || (hovered.Some? && i <= hovered.value)
  {
    var base := if i < rating then Gold else Gray;
    var extra := if hovered.Some? && i <= hovered.value then Gold else "";
    assert NoSpace(Gold) && NoSpace(Gray) && Gold != Gray;
    StarTokens(base, extra);
  }

  /** Pagination dot `index` carries the highlight classes. */
  predicate DotHighlighted(index: int, activeIndex: int)
  {
    index == activeIndex
  }

  /** Exactly one dot is highlighted: the shown slide's. */
  lemma OneDotHighlighted(activeIndex: int)
    requires InRange(activeIndex)
    ensures (set index | 0 <= index < Count && DotHighlighted(index, activeIndex)) == {activeIndex}
  {
  }
}
