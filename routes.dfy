/**
 * The application's route table: six explicit paths and a catch-all, each
 * page wrapped in the page-transition container, and the routes keyed by
 * the location's pathname so that a change of pathname (and only that)
 * replaces the mounted page.
 */
module Routes {

  datatype Page = Index | About | Projects | Skills | Achievements | Contact | NotFound

  /** What a route renders: its page inside the page-transition container. */
  datatype Element = PageTransition(page: Page)

  datatype Route = Route(path: string, element: Element)

  /** The explicit `<Route>`s, in declaration order; `*` follows them. */
  const ExplicitRoutes: seq<Route> := [
    Route("/", PageTransition(Index)),
    Route("/about", PageTransition(About)),
    Route("/projects", PageTransition(Projects)),
    Route("/skills", PageTransition(Skills)),
    Route("/achievements", PageTransition(Achievements)),
    Route("/contact", PageTransition(Contact))
  ]

  const CatchAll: Element := PageTransition(NotFound)

  /** The first explicit route whose path is exactly `pathname`, else the catch-all. */
  function Match(routes: seq<Route>, pathname: string): (e: Element)
    ensures (exists k :: 0 <= k < |routes| && routes[k].path == pathname) ==>
              exists k :: 0 <= k < |routes| && routes[k].path == pathname && e == routes[k].element
                          && forall j :: 0 <= j < k ==> routes[j].path != pathname
    ensures (forall k :: 0 <= k < |routes| ==> routes[k].path != pathname) ==> e == CatchAll
  {
    if |routes| == 0 then CatchAll
    else if routes[0].path == pathname then routes[0].element
    else
      var e := Match(routes[1..], pathname);
      assert forall k :: 1 <= k < |routes| ==> routes[k] == routes[1..][k - 1];
      e
  }

  /** `resolve(pathname)`: defined for every string. */
  function Resolve(pathname: string): Element
  {
    Match(ExplicitRoutes, pathname)
  }

  function ExplicitPaths(): (paths: set<string>)
    ensures forall p :: p in paths <==> exists k :: 0 <= k < |ExplicitRoutes| && ExplicitRoutes[k].path == p
  {
    set k | 0 <= k < |ExplicitRoutes| :: ExplicitRoutes[k].path
  }

  /** No two explicit routes share a path, so at most one of them can match. */
  lemma ExplicitPathsDistinct()
    ensures forall j, k :: 0 <= j < k < |ExplicitRoutes| ==> ExplicitRoutes[j].path != ExplicitRoutes[k].path
  {
  }

  /** The six explicit paths and the page each one shows. */
  lemma ExplicitMapping()
    ensures Resolve("/") == PageTransition(Index)
    ensures Resolve("/about") == PageTransition(About)
    ensures Resolve("/projects") == PageTransition(Projects)
    ensures Resolve("/skills") == PageTransition(Skills)
    ensures Resolve("/achievements") == PageTransition(Achievements)
    ensures Resolve("/contact") == PageTransition(Contact)
  {
  }

  /** A pathname shows the not-found page exactly when it is none of the explicit paths. */
  lemma NotFoundIffUnlisted(pathname: string)
    ensures Resolve(pathname).page == NotFound <==> pathname !in ExplicitPaths()
  {
    if pathname in ExplicitPaths() {
      ExplicitPagesFound();
    }
  }

  /** None of the explicit routes shows the not-found page. */
  lemma ExplicitPagesFound()
    ensures forall k :: 0 <= k < |ExplicitRoutes| ==> ExplicitRoutes[k].element.page != NotFound
  {
  }

  /** Each explicit route's path resolves to that route's own element. */
  lemma ResolveExplicit(k: nat)
    requires k < |ExplicitRoutes|
    ensures Resolve(ExplicitRoutes[k].path) == ExplicitRoutes[k].element
  {
    ExplicitPathsDistinct();
  }

  /** The part of the router's location this component reads. */
  datatype Location = Location(pathname: string, search: string, hash: string)

  /** The `key` of `<Routes>`. */
  function RouteKey(loc: Location): string
  {
    loc.pathname
  }

  /**
   * What `AnimatePresence mode="wait"` does when the location changes: with
   * an unchanged key the mounted page stays; with a new key the old element
   * runs its exit animation before the new one is mounted.
   */
  datatype Presence = Stay(element: Element) | ExitThenEnter(leaving: Element, entering: Element)

  function OnNavigate(current: Location, next: Location): (p: Presence)
    ensures p.Stay? <==> current.pathname == next.pathname
    ensures p.Stay? ==> p.element == Resolve(next.pathname)
    ensures p.ExitThenEnter? ==> p.leaving == Resolve(current.pathname) && p.entering == Resolve(next.pathname)
  {
    if RouteKey(current) == RouteKey(next) then Stay(Resolve(current.pathname))
    else ExitThenEnter(Resolve(current.pathname), Resolve(next.pathname))
  }

  /** Changing only the query string or the hash never remounts the page. */
  lemma HashOrSearchChangeStays(loc: Location, search: string, hash: string)
    ensures OnNavigate(loc, Location(loc.pathname, search, hash)) == Stay(Resolve(loc.pathname))
  {
  }
}
