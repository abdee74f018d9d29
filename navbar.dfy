/** The navigation bar: the `scrolled` flag, the mobile menu flag and the
    highlighted section (`activePage`), updated by the document's scroll
    handler and by the menu buttons. The DOM is abstracted: the handler is
    given `window.scrollY` and, for each watched section in order, the
    bounding rectangle of its element or None when there is no element. */
module Navbar {
  import opened Common

  /** The vertical extent of `getBoundingClientRect()`, in CSS pixels. */
  datatype Rect = Rect(top: real, bottom: real)

  /** The sections the scroll handler looks for, in order. */
  const Sections := ["features", "how-it-works", "comparison"]

  const Home := "home"

  /** The viewport line (200px from the top) a section must span. */
  predicate Covers(r: Rect)
  {
    r.top <= 200.0 && r.bottom >= 200.0
  }

  /** Section `k`'s element exists and spans the line. */
  predicate Matches(rects: seq<Option<Rect>>, k: int)
    requires |rects| == |Sections| && 0 <= k < |Sections|
  {
    rects[k].Some? && Covers(rects[k].value)
  }

  /** What the handler's loop does from section `i` on, starting with
      `page` shown: a present, covering section wins and stops the scan; a
      present, non-covering section resets to "home" near the top of the
      page; a missing section is skipped. */
  function ScanFrom(page: string, scrollY: real, rects: seq<Option<Rect>>, i: nat): (shown: string)
    requires |rects| == |Sections| && i <= |Sections|
    ensures shown == page || shown == Home || shown in Sections[i..]
    decreases |Sections| - i
  {
    if i == |Sections| then page
    else match rects[i]
      case None => ScanFrom(page, scrollY, rects, i + 1)
      case Some(r) =>
        if Covers(r) then Sections[i]
        else ScanFrom(if scrollY < 100.0 then Home else page, scrollY, rects, i + 1)
  }

  /** The first matching section (in the watched order) is the one shown. */
  lemma {:induction false} ScanFirstMatch(page: string, scrollY: real, rects: seq<Option<Rect>>, i: nat, k: nat)
    requires |rects| == |Sections| && i <= k < |Sections|
    requires Matches(rects, k)
    requires forall j :: i <= j < k ==> !Matches(rects, j)
    ensures ScanFrom(page, scrollY, rects, i) == Sections[k]
    decreases k - i
  {
    if i < k {
      assert !Matches(rects, i);
      ScanFirstMatch(if rects[i].Some? && scrollY < 100.0 then Home else page, scrollY, rects, i + 1, k);
    }
  }

  /** With no matching section, "home" is shown when the page is near the
      top and at least one watched element exists; otherwise the shown
      section stays as it was. */
  lemma {:induction false} ScanNoMatch(page: string, scrollY: real, rects: seq<Option<Rect>>, i: nat)
    requires |rects| == |Sections| && i <= |Sections|
    requires forall j :: i <= j < |Sections| ==> !Matches(rects, j)
    ensures ScanFrom(page, scrollY, rects, i) ==
      if scrollY < 100.0 && exists j :: i <= j < |Sections| && rects[j].Some? then Home else page
    decreases |Sections| - i
  {
    if i < |Sections| {
      assert !Matches(rects, i);
      var next := if rects[i].Some? && scrollY < 100.0 then Home else page;
      ScanNoMatch(next, scrollY, rects, i + 1);
      if scrollY < 100.0 && rects[i].None? && exists j :: i <= j < |Sections| && rects[j].Some? {
        var j :| i <= j < |Sections| && rects[j].Some?;
        assert i + 1 <= j;
      }
    }
  }

  class NavbarState {
    var scrolled: bool
    var mobileMenuOpen: bool
    var activePage: string

    constructor ()
      ensures !scrolled && !mobileMenuOpen && activePage == Home
    {
      scrolled := false;
      mobileMenuOpen := false;
      activePage := Home;
    }

    /** The document scroll handler. */
    method HandleScroll(scrollY: real, rects: seq<Option<Rect>>)
      requires |rects| == |Sections|
      modifies this`scrolled, this`activePage
      ensures scrolled <==> scrollY > 10.0
      ensures activePage == ScanFrom(old(activePage), scrollY, rects, 0)
    {
      var isScrolled := scrollY > 10.0;
      if isScrolled != scrolled {
        scrolled := isScrolled;
      }
      var i := 0;
      while i < |Sections|
        invariant 0 <= i <= |Sections|
        invariant scrolled == isScrolled
        invariant ScanFrom(activePage, scrollY, rects, i) == ScanFrom(old(activePage), scrollY, rects, 0)
      {
        match rects[i] {
          case Some(r) =>
            if Covers(r) {
              activePage := Sections[i];
              break;
            } else if scrollY < 100.0 {
              activePage := Home;
            }
          case None =>
        }
        i := i + 1;
      }
    }

    /** The hamburger button. */
    method ToggleMobileMenu()
      modifies this`mobileMenuOpen
      ensures mobileMenuOpen == !old(mobileMenuOpen)
    {
      mobileMenuOpen := !mobileMenuOpen;
    }

    /** Any link in the mobile menu. */
    method CloseMobileMenu()
      modifies this`mobileMenuOpen
      ensures !mobileMenuOpen
    {
      mobileMenuOpen := false;
    }
  }

  /** The desktop link to section `k` is drawn active. */
  predicate NavLinkActive(k: int, activePage: string)
    requires 0 <= k < |Sections|
  {
    activePage == Sections[k]
  }

  /** At most one desktop link is active: the one of the shown section,
      and none while "home" is shown. */
  lemma OneActiveLink(activePage: string)
    ensures forall k :: 0 <= k < |Sections| && activePage != Sections[k] ==> !NavLinkActive(k, activePage)
    ensures forall k, l ::
      (0 <= k < |Sections| && 0 <= l < |Sections| && NavLinkActive(k, activePage) && NavLinkActive(l, activePage))
      ==> k == l
    ensures activePage == Home ==> forall k :: 0 <= k < |Sections| ==> !NavLinkActive(k, activePage)
  {
    assert Sections[0] != Sections[1] && Sections[0] != Sections[2] && Sections[1] != Sections[2];
    assert Home != Sections[0] && Home != Sections[1] && Home != Sections[2];
  }

  const Logo := "SpectroAI"
  const LogoPurple := "#9d4edd"

  /** One letter of the logo: its class and its inline colour, if any. */
  datatype LogoSpan = LogoSpan(letter: char, className: string, color: Option<string>)

  /** `"SpectroAI".split("").map(...)`: from index 7 on, no class and the
      purple inline colour; before it, the white class. */
  function LogoSpans(text: string): (spans: seq<LogoSpan>)
    ensures |spans| == |text|
    ensures forall i :: 0 <= i < |text| ==> spans[i].letter == text[i]
  {
    seq(|text|, i requires 0 <= i < |text| =>
      if i >= 7 then LogoSpan(text[i], "", Some(LogoPurple)) else LogoSpan(text[i], "text-white", None))
  }

  /** In the logo exactly the letters "AI" are purple, and every other
      letter is white. */
  lemma LogoColouring()
    ensures Logo[7..] == "AI"
    ensures forall i :: 0 <= i < |Logo| ==>
      (LogoSpans(Logo)[i].color == Some(LogoPurple) <==> Logo[i] == 'A' || Logo[i] == 'I')
    ensures forall i :: 0 <= i < |Logo| ==>
      (LogoSpans(Logo)[i].className == "text-white" <==> LogoSpans(Logo)[i].color.None?)
  {
  }
}
