/**
 * The project card of the projects page: the featured badge, the demo
 * links, the collapsible list of achievements, and the tech tags cut to
 * six with a "+N more" badge.
 */
module ProjectCard {
  import opened Wrappers
  import opened Truncation
  import ProjectsPage

  /** The tags shown before the "+N more" badge. */
  const MaxTags: nat := 6

  /** The props the card's behaviour depends on; `demoUrl` and `featured` are optional. */
  datatype CardProps = CardProps(
    title: string,
    achievements: seq<string>,
    techStack: seq<string>,
    demoUrl: Option<string>,
    githubUrl: string,
    featured: Option<bool>)

  /** The main demo button: a link, or the inert "Demo N/A" label. */
  datatype DemoButton = ViewDemo(href: string) | DemoUnavailable

  datatype CardView = CardView(
    featuredBadge: bool,
    hoverDemo: Option<string>,   // the rocket link in the hover overlay
    demoButton: DemoButton,
    github: string,
    achievementsOpen: bool,
    chevronUp: bool,
    tags: seq<string>,
    moreBadge: Option<nat>)

  /** A JavaScript truthiness test on an optional string. */
  predicate PresentText(s: Option<string>)
  {
    s.Some? && s.value != ""
  }

  function Render(p: CardProps, isExpanded: bool): (v: CardView)
    ensures v.featuredBadge <==> p.featured == Some(true)
    ensures v.hoverDemo.Some? <==> PresentText(p.demoUrl)
    ensures v.demoButton.ViewDemo? <==> PresentText(p.demoUrl)
    ensures PresentText(p.demoUrl) ==> v.hoverDemo == Some(p.demoUrl.value) && v.demoButton == ViewDemo(p.demoUrl.value)
    ensures v.github == p.githubUrl
    ensures v.achievementsOpen == v.chevronUp == isExpanded
    ensures v.tags == Shown(p.techStack, MaxTags)
    ensures v.moreBadge == OverflowBadge(|p.techStack|, MaxTags)
  {
    var demo := if PresentText(p.demoUrl) then Some(p.demoUrl.value) else None;
    CardView(
      p.featured == Some(true),
      demo,
      if demo.Some? then ViewDemo(demo.value) else DemoUnavailable,
      p.githubUrl,
      isExpanded,
      isExpanded,
      Shown(p.techStack, MaxTags),
      OverflowBadge(|p.techStack|, MaxTags))
  }

  /** The overlay link and the main button never disagree about the demo. */
  lemma DemoLinksAgree(p: CardProps, isExpanded: bool)
    ensures Render(p, isExpanded).hoverDemo.Some? <==> Render(p, isExpanded).demoButton.ViewDemo?
  {
  }

  /** The tags and the badge account for the whole stack, first six in order. */
  lemma TagsAccountForStack(p: CardProps, isExpanded: bool)
    ensures var v := Render(p, isExpanded);
      && |v.tags| + v.moreBadge.GetOr(0) == |p.techStack|
      && (v.moreBadge.Some? <==> |p.techStack| > MaxTags)
      && v.tags == p.techStack[..|v.tags|]
  {
    ShownPlusHidden(p.techStack, MaxTags);
  }

  /** The props the projects page passes: no `demoUrl` at all. */
  function PropsOf(p: ProjectsPage.Project): (c: CardProps)
    ensures c.demoUrl == None && c.techStack == p.techStack && c.featured == Some(p.featured)
  {
    CardProps(p.title, p.achievements, p.techStack, None, p.githubUrl, Some(p.featured))
  }

  /**
   * On the projects page every card shows "Demo N/A", no overlay demo link,
   * the featured badge, and six tags followed by a "+N more" badge.
   */
  lemma ProjectsPageCards(k: nat, isExpanded: bool)
    requires k < |ProjectsPage.Projects|
    ensures var v := Render(PropsOf(ProjectsPage.Projects[k]), isExpanded);
      && v.demoButton == DemoUnavailable && v.hoverDemo == None
      && v.featuredBadge
      && |v.tags| == MaxTags
      && v.moreBadge == Some(|ProjectsPage.Projects[k].techStack| - MaxTags)
  {
    var p := ProjectsPage.Projects[k];
    assert |p.techStack| > MaxTags;
  }

  /** The card's `isExpanded` hook. */
  class CardState {
    var isExpanded: bool

    constructor ()
      ensures !isExpanded
    {
      isExpanded := false;
    }

    /** The "Key Achievements" button. */
    method Toggle()
      modifies this
      ensures isExpanded == !old(isExpanded)
    {
      isExpanded := !isExpanded;
    }

    function View(p: CardProps): CardView
      reads this
    {
      Render(p, isExpanded)
    }
  }
}
