/**
 * The site's navigation bar: the fixed list of section links, the scroll
 * handler that marks the bar as scrolled and picks the active section, the
 * highlighting of the active link, and the mobile menu.
 */
module Navbar {
  import opened Wrappers
  import opened Text

  datatype NavLink = NavLink(href: string, caption: string)

  const SectionPrefix: string := "/#"

  /** A link to an element of the home page: its href is `/#` followed by the element id. */
  function SectionLink(id: string, caption: string): NavLink
  {
    NavLink(SectionPrefix + id, caption)
  }

  /** `navLinks`, in page order. */
  const NavLinks: seq<NavLink> := [
    SectionLink("home", "Home"),
    SectionLink("about", "About"),
    SectionLink("projects", "Projects"),
    SectionLink("experience", "Experience"),
    SectionLink("skills", "Skills"),
    SectionLink("achievements", "Achievements"),
    SectionLink("contact", "Contact")
  ]

  const PageSections: seq<string> := ["home", "about", "projects", "experience", "skills", "achievements", "contact"]

  /** `window.scrollY > 50` marks the bar as scrolled. */
  const ScrollThreshold: int := 50
  /** A section counts as reached once its top is at most 100px from the viewport top. */
  const ActivationOffset: int := 100

  /** The section id a link points to: `href.replace("/#", "")`. */
  function SectionOf(href: string): string
  {
    ReplaceFirst(href, SectionPrefix, "")
  }

  /** `navLinks.map((link) => link.href.replace("/#", ""))`. */
  function SectionIds(): (ids: seq<string>)
    ensures |ids| == |NavLinks|
  {
    seq(|NavLinks|, k requires 0 <= k < |NavLinks| => SectionOf(NavLinks[k].href))
  }

  lemma SectionIdsValue()
    ensures SectionIds() == PageSections
  {
    forall k | 0 <= k < |NavLinks|
      ensures SectionIds()[k] == PageSections[k]
    {
      assert NavLinks[k].href == SectionPrefix + PageSections[k];
      ReplaceLeadingPattern(SectionPrefix, PageSections[k]);
    }
  }

  /**
   * The part of the document the scroll handler looks at: the ids that
   * `getElementById` finds, each with its bounding box's top.
   */
  type Layout = map<string, int>

  predicate Reached(layout: Layout, id: string)
  {
    id in layout && layout[id] <= ActivationOffset
  }

  /** The last section in page order that exists and has been scrolled to. */
  function LastReached(sections: seq<string>, layout: Layout): (r: Option<string>)
    ensures r.Some? ==> exists k :: 0 <= k < |sections| && sections[k] == r.value && Reached(layout, sections[k])
                         && forall j :: k < j < |sections| ==> !Reached(layout, sections[j])
    ensures r.None? <==> forall k :: 0 <= k < |sections| ==> !Reached(layout, sections[k])
    decreases |sections|
  {
    if |sections| == 0 then None
    else
      var last := sections[|sections| - 1];
      var front := sections[..|sections| - 1];
      assert forall k :: 0 <= k < |front| ==> front[k] == sections[k];
      if Reached(layout, last) then Some(last) else LastReached(front, layout)
  }

  /** The active section after a scroll event that started in `previous`. */
  function ActiveAfterScroll(layout: Layout, previous: string): string
  {
    LastReached(SectionIds(), layout).GetOr(previous)
  }

  /**
   * The loop of the scroll handler: walk the sections from the last to the
   * first and stop at the first one whose element exists and is reached;
   * when none is, the active section stays as it was.
   */
  method ScanActive(sections: seq<string>, layout: Layout, previous: string) returns (active: string)
    ensures active == LastReached(sections, layout).GetOr(previous)
    ensures active == previous || active in sections
  {
    active := previous;
    var i := |sections|;
    while i > 0
      invariant 0 <= i <= |sections|
      invariant LastReached(sections, layout) == LastReached(sections[..i], layout)
      decreases i
    {
      var section := sections[i - 1];
      assert sections[..i][..i - 1] == sections[..i - 1];
      if section in layout {
        var top := layout[section];
        if top <= ActivationOffset {
          active := section;
          return;
        }
      }
      i := i - 1;
    }
  }

  /** `activeSection === link.href.replace("/#", "")`, used by both menus. */
  predicate IsActive(link: NavLink, activeSection: string)
  {
    activeSection == SectionOf(link.href)
  }

  /** The page's section ids are pairwise distinct (they even differ in length). */
  lemma PageSectionsDistinct()
    ensures forall j, k :: 0 <= j < k < |PageSections| ==> PageSections[j] != PageSections[k]
  {
    forall j, k | 0 <= j < k < |PageSections|
      ensures |PageSections[j]| != |PageSections[k]|
    {
    }
  }

  /** Whenever the active section is one of the page's sections, exactly one link is highlighted. */
  lemma ExactlyOneHighlighted(activeSection: string)
    requires activeSection in SectionIds()
    ensures exists k :: 0 <= k < |NavLinks| && IsActive(NavLinks[k], activeSection)
    ensures forall j, k :: 0 <= j < |NavLinks| && 0 <= k < |NavLinks| && IsActive(NavLinks[j], activeSection) && IsActive(NavLinks[k], activeSection) ==> j == k
  {
    var ids := SectionIds();
    var k :| 0 <= k < |ids| && ids[k] == activeSection;
    assert IsActive(NavLinks[k], activeSection);
    SectionIdsValue();
    PageSectionsDistinct();
    assert forall j :: 0 <= j < |NavLinks| && IsActive(NavLinks[j], activeSection) ==> PageSections[j] == activeSection;
  }

  /** Where a click on a link lands: a path and the element id to scroll to. */
  datatype Target = Target(path: string, fragment: string)

  /**
   * Link following, reduced to the two forms this site uses: an href that
   * starts with `#` stays on the current path, one that starts with a path
   * goes to that path.
   */
  function Follow(currentPath: string, href: string): (t: Target)
    ensures |href| > 0 && href[0] == '#' ==> t == Target(currentPath, href[1..])
  {
    if |href| > 0 && href[0] == '#' then Target(currentPath, href[1..])
    else match IndexOf(href, "#")
      case Some(i) => Target(href[..i], href[i + 1..])
      case None => Target(href, "")
  }

  lemma FollowSectionHref(currentPath: string, id: string)
    ensures Follow(currentPath, SectionPrefix + id) == Target("/", id)
  {
    var href := SectionPrefix + id;
    assert href[0] == '/' && href[1] == '#';
    assert href[0..1] != "#";
    assert OccursAt(href, "#", 1);
    assert IndexOf(href, "#") == Some(1);
    assert href[2..] == id;
  }

  /** Every link of the bar scrolls to its own section of the home page, from whatever page it is clicked on. */
  lemma NavLinksReachHomeSections(currentPath: string, k: nat)
    requires k < |NavLinks|
    ensures Follow(currentPath, NavLinks[k].href) == Target("/", SectionIds()[k])
  {
    SectionIdsValue();
    var id := SectionIds()[k];
    assert NavLinks[k].href == SectionPrefix + PageSections[k];
    FollowSectionHref(currentPath, id);
  }

  /** The desktop "Let's Talk" button. */
  const DesktopTalkHref: string := "/#contact"
  /** The mobile menu's "Let's Talk" button, as written. */
  const MobileTalkHrefAsWritten: string := "#contact"
  /** The mobile menu's "Let's Talk" button, pointing where the desktop one does. */
  const MobileTalkHref: string := "/#contact"

  /**
   * The layout renders the bar on every page but only the home page has a
   * `contact` section: the mobile button as written, clicked on `/projects`,
   * stays on `/projects`, while the desktop one goes to the home page's section.
   */
  lemma MobileTalkAsWrittenStaysOffHome()
    ensures Follow("/projects", MobileTalkHrefAsWritten) == Target("/projects", "contact")
    ensures Follow("/projects", DesktopTalkHref) == Target("/", "contact")
  {
    FollowSectionHref("/projects", "contact");
  }

  /** With the corrected href both buttons land on the home page's contact section from every page. */
  lemma TalkButtonsAgree(currentPath: string)
    ensures Follow(currentPath, MobileTalkHref) == Follow(currentPath, DesktopTalkHref) == Target("/", "contact")
  {
    FollowSectionHref(currentPath, "contact");
  }

  /** The bar's three `useState` hooks and its event handlers. */
  class NavbarState {
    var isScrolled: bool
    var isMobileMenuOpen: bool
    var activeSection: string

    ghost predicate Valid()
      reads this
    {
      activeSection in SectionIds()
    }

    constructor ()
      ensures !isScrolled && !isMobileMenuOpen && activeSection == "home"
      ensures Valid()
    {
      isScrolled := false;
      isMobileMenuOpen := false;
      activeSection := "home";
      SectionIdsValue();
    }

    /** `handleScroll`. */
    method HandleScroll(scrollY: int, layout: Layout)
      requires Valid()
      modifies this
      ensures Valid()
      ensures isScrolled == (scrollY > ScrollThreshold)
      ensures activeSection == ActiveAfterScroll(layout, old(activeSection))
      ensures isMobileMenuOpen == old(isMobileMenuOpen)
    {
      isScrolled := scrollY > ScrollThreshold;
      var sections := SectionIds();
      activeSection := ScanActive(sections, layout, activeSection);
    }

    /** The menu button. */
    method ToggleMenu()
      modifies this
      ensures isMobileMenuOpen == !old(isMobileMenuOpen)
      ensures isScrolled == old(isScrolled) && activeSection == old(activeSection)
    {
      isMobileMenuOpen := !isMobileMenuOpen;
    }

    /** A click on a mobile-menu link or on the mobile "Let's Talk" button. */
    method CloseMenu()
      modifies this
      ensures !isMobileMenuOpen
      ensures isScrolled == old(isScrolled) && activeSection == old(activeSection)
    {
      isMobileMenuOpen := false;
    }
  }
}
