/** The footer: a back-to-top button shown while the page is scrolled past
    500 pixels, quick links that scroll to the section whose id is the
    lower-cased label, and a social-link row rendered from an array whose
    first slot is a hole. */
module Footer {

  /** Scroll offset, in pixels, beyond which the back-to-top button shows. */
  const BackToTopOffset: nat := 500

  /** The scroll handler's new value for `showBackToTop`. */
  predicate ShowBackToTop(scrollY: nat)
  {
    scrollY > BackToTopOffset
  }

  /** The flag after the scroll handler has run once per entry of
      `scrolls`, starting from `flag`. */
  function FlagAfter(flag: bool, scrolls: seq<nat>): bool
    decreases |scrolls|
  {
    if scrolls == [] then flag else FlagAfter(ShowBackToTop(scrolls[0]), scrolls[1..])
  }

  /** The flag is overwritten, not latched: after any scroll it reflects
      only the last offset seen. */
  lemma {:induction false} FlagFollowsLastScroll(flag: bool, scrolls: seq<nat>)
    requires scrolls != []
    ensures FlagAfter(flag, scrolls) <==> scrolls[|scrolls| - 1] > BackToTopOffset
    decreases |scrolls|
  {
    if |scrolls| > 1 {
      FlagFollowsLastScroll(ShowBackToTop(scrolls[0]), scrolls[1..]);
    }
  }

  /** The threshold is strict, and scrolling back up hides the button
      again. */
  lemma ThresholdAndReturn()
    ensures !ShowBackToTop(500) && ShowBackToTop(501)
    ensures FlagAfter(false, [501]) && !FlagAfter(false, [501, 500])
  {
    assert [501, 500][1..] == [500];
  }

  /** The mounted footer: the `showBackToTop` state cell. */
  class FooterSection {
    var showBackToTop: bool

    constructor ()
      ensures !showBackToTop
    {
      showBackToTop := false;
    }

    /** `handleScroll`, with `window.scrollY` as its argument. */
    method OnScroll(scrollY: nat)
      modifies this
      ensures showBackToTop == ShowBackToTop(scrollY)
      ensures showBackToTop == FlagAfter(old(showBackToTop), [scrollY])
    {
      showBackToTop := scrollY > 500;
    }

    /** The overlay rendered after the footer: the back-to-top button or
        nothing. */
    function Overlay(): (r: seq<string>)
      reads this
      ensures r != [] <==> showBackToTop
    {
      if showBackToTop then ["Back to top"] else []
    }
  }

  // ---------------------------------------------------------- quick links

  const QuickLinks: seq<string> := ["Home", "About", "Projects", "Contact"]

  /** The `id` of every section on the page: the hero, about,
      certifications, projects and contact sections. */
  const PageSectionIds: set<string> := {"home", "about", "certifications", "projects", "contact"}

  predicate IsUpper(c: char)
  {
    'A' <= c <= 'Z'
  }

  /** `toLowerCase` on one character (ASCII letters). */
  function LowerChar(c: char): char
  {
    if IsUpper(c) then (c as int + 32) as char else c
  }

  /** `toLowerCase`: every character lowered, length and order kept. */
  function ToLower(s: string): (r: string)
    ensures |r| == |s|
    ensures forall i :: 0 <= i < |s| ==> r[i] == LowerChar(s[i])
    decreases |s|
  {
    if s == [] then [] else [LowerChar(s[0])] + ToLower(s[1..])
  }

  /** A lowered label has no upper-case letter left, and lowering it again
      changes nothing. */
  lemma ToLowerIsLower(s: string)
    ensures forall i :: 0 <= i < |s| ==> !IsUpper(ToLower(s)[i])
    ensures ToLower(ToLower(s)) == ToLower(s)
  {
  }

  /** What a quick-link click does: scroll to the element, or nothing when
      `getElementById` finds none. */
  datatype Click = ScrollTo(id: string) | NoOp

  function QuickLinkClick(text: string, ids: set<string>): (c: Click)
    ensures c.ScrollTo? <==> ToLower(text) in ids
    ensures c.ScrollTo? ==> c.id == ToLower(text)
  {
    var id := ToLower(text);
    if id in ids then ScrollTo(id) else NoOp
  }

  /** Each quick link targets its label lower-cased, and every one of those
      ids is a section of the page, so no quick link is a no-op. */
  lemma EveryQuickLinkResolves()
    ensures ToLower(QuickLinks[0]) == "home"
    ensures ToLower(QuickLinks[1]) == "about"
    ensures ToLower(QuickLinks[2]) == "projects"
    ensures ToLower(QuickLinks[3]) == "contact"
    ensures forall i :: 0 <= i < |QuickLinks| ==>
      QuickLinkClick(QuickLinks[i], PageSectionIds) == ScrollTo(ToLower(QuickLinks[i]))
  {
    LowersTo("Home", "home");
    LowersTo("About", "about");
    LowersTo("Projects", "projects");
    LowersTo("Contact", "contact");
    forall i | 0 <= i < |QuickLinks|
      ensures QuickLinkClick(QuickLinks[i], PageSectionIds) == ScrollTo(ToLower(QuickLinks[i]))
    {
      if i == 0 {
        assert "home" in PageSectionIds;
      } else if i == 1 {
        assert "about" in PageSectionIds;
      } else if i == 2 {
        assert "projects" in PageSectionIds;
      } else {
        assert "contact" in PageSectionIds;
      }
    }
  }

  lemma LowersTo(s: string, t: string)
    requires |s| == |t| && forall i :: 0 <= i < |s| ==> LowerChar(s[i]) == t[i]
    ensures ToLower(s) == t
  {
  }

  // --------------------------------------------------------- social links

  /** A social link's `label` (its key and aria-label) and `href`. */
  datatype SocialLink = SocialLink(name: string, href: string)

  /** An array slot: a hole (as left by `[ , ...]`) or an element. */
  datatype Slot<T> = Hole | Item(value: T)

  const SocialLinks: seq<Slot<SocialLink>> := [
    Hole,
    Item(SocialLink("LinkedIn", "https://www.linkedin.com/in/charan-b-sai-dev5/")),
    Item(SocialLink("Email", "mailto:charan7898@gmail.com"))
  ]

  /** A rendered social anchor with the index `map` passed it; its delay is
      `index * 0.1` s, i.e. `index` tenths. */
  datatype Anchor = Anchor(index: nat, link: SocialLink)

  /** How many slots hold an element. */
  function ItemCount<T>(slots: seq<Slot<T>>): nat
    decreases |slots|
  {
    if slots == [] then 0 else (if slots[0].Item? then 1 else 0) + ItemCount(slots[1..])
  }

  /** `slots.map((social, index) => ...)` for slots starting at index
      `from`: one anchor per element, none for a hole, each anchor carrying
      its element's own index, in index order. */
  function RenderSocial(slots: seq<Slot<SocialLink>>, from: nat): (r: seq<Anchor>)
    ensures |r| == ItemCount(slots)
    ensures forall k :: 0 <= k < |r| ==>
      from <= r[k].index < from + |slots| && slots[r[k].index - from] == Item(r[k].link)
    ensures forall j, k :: 0 <= j < k < |r| ==> r[j].index < r[k].index
    decreases |slots|
  {
    if slots == [] then []
    else
      var rest := RenderSocial(slots[1..], from + 1);
      match slots[0]
      case Hole => rest
      case Item(link) => [Anchor(from, link)] + rest
  }

  /** On the page only LinkedIn and Email are drawn, with their real indices
      1 and 2, hence delays of 0.1 s and 0.2 s. */
  lemma SocialRowOnThePage()
    ensures RenderSocial(SocialLinks, 0) == [
      Anchor(1, SocialLink("LinkedIn", "https://www.linkedin.com/in/charan-b-sai-dev5/")),
      Anchor(2, SocialLink("Email", "mailto:charan7898@gmail.com"))]
  {
    var r := RenderSocial(SocialLinks, 0);
    assert SocialLinks[1..][1..][1..] == [];
  }
}
