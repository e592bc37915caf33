/**
 * The 3D project card of the home page: the project number, the tags cut
 * to four with a "+N" badge, the two overlay links and the lazily loaded
 * image. The tilt and parallax on mouse movement are not part of this model.
 */
module ProjectCard3D {
  import opened Wrappers
  import opened Truncation
  import LazyImage

  const MaxTags: nat := 4

  datatype CardProject = CardProject(title: string, tags: seq<string>, metric: string, github: string, live: string, image: string)

  datatype Card3DView = Card3DView(
    number: nat,
    metric: string,
    liveHref: string,
    githubHref: string,
    tags: seq<string>,
    moreBadge: Option<nat>,
    image: LazyImage.Layers)

  /** The card at position `index` of the grid, with its image in state `img`. */
  function Render(p: CardProject, index: nat, img: LazyImage.LoadState): (v: Card3DView)
    ensures v.number == index + 1
    ensures v.tags == Shown(p.tags, MaxTags) && |v.tags| == if |p.tags| <= MaxTags then |p.tags| else MaxTags
    ensures v.moreBadge.Some? <==> |p.tags| > MaxTags
    ensures v.moreBadge.Some? ==> v.moreBadge.value == |p.tags| - MaxTags
    ensures v.liveHref == p.live && v.githubHref == p.github && v.metric == p.metric
    ensures v.image == LazyImage.Render(img)
  {
    Card3DView(index + 1, p.metric, p.live, p.github, Shown(p.tags, MaxTags), OverflowBadge(|p.tags|, MaxTags), LazyImage.Render(img))
  }

  /** `projects.map((project, index) => <ProjectCard3D index={index} …/>)`. */
  function RenderGrid(ps: seq<CardProject>, imgs: seq<LazyImage.LoadState>): (vs: seq<Card3DView>)
    requires |imgs| == |ps|
    ensures |vs| == |ps|
    ensures forall i :: 0 <= i < |vs| ==> vs[i] == Render(ps[i], i, imgs[i])
  {
    seq(|ps|, i requires 0 <= i < |ps| => Render(ps[i], i, imgs[i]))
  }

  /** The grid numbers its cards 1, 2, … in order, so no two cards share a number. */
  lemma GridNumbersAreOneBased(ps: seq<CardProject>, imgs: seq<LazyImage.LoadState>)
    requires |imgs| == |ps|
    ensures forall i :: 0 <= i < |ps| ==> RenderGrid(ps, imgs)[i].number == i + 1
    ensures forall i, j :: 0 <= i < j < |ps| ==> RenderGrid(ps, imgs)[i].number < RenderGrid(ps, imgs)[j].number
    ensures |ps| > 0 ==> RenderGrid(ps, imgs)[|ps| - 1].number == |ps|
  {
  }

  /** Shown tags and the badge count add up to all tags. */
  lemma TagsAccountForAll(p: CardProject, index: nat, img: LazyImage.LoadState)
    ensures |Render(p, index, img).tags| + Render(p, index, img).moreBadge.GetOr(0) == |p.tags|
  {
    ShownPlusHidden(p.tags, MaxTags);
  }

  /** A freshly mounted card shows the pulse over a hidden image. */
  lemma MountedCardPulses(p: CardProject, index: nat)
    ensures Render(p, index, LazyImage.Initial).image == LazyImage.Layers(true, false, true, false)
  {
  }
}
