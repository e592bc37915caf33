/**
 * The projects page: a category filter and a case-insensitive search over
 * the featured projects, "Showing X of Y" and an empty state, and a second
 * list of additional projects that no filter touches.
 */
module ProjectsPage {
  import opened Wrappers
  import opened Text

  datatype Project = Project(
    id: nat,
    title: string,
    description: string,
    date: string,
    achievements: seq<string>,
    techStack: seq<string>,
    categoryIds: seq<string>,
    githubUrl: string,
    featured: bool)

  /**
   * The entries of the second list, which carry no date, achievements or
   * badge; their description is only displayed and is not modelled.
   */
  datatype MoreProject = MoreProject(
    id: nat,
    title: string,
    techStack: seq<string>,
    categoryIds: seq<string>,
    githubUrl: string)

  /** The id of the filter button that disables the category filter. */
  const AllCategories: string := "all"

  /** The ids of the filter buttons, in display order. */
  const CategoryIds: seq<string> := ["all", "ai-ml", "data-science", "cloud", "nlp", "cv"]

  /**
   * The featured projects. Their description paragraphs are not reproduced
   * (left empty): no property below depends on their wording.
   */
  const Projects: seq<Project> := [
    Project(1, "Hindi-English Code-Mix Language Identification",
      "",
      "Feb 2025 - Mar 2025",
      ["97.83% accuracy with LSTM model",
       "Implemented 4 different models (LSTM, BERT, CRF, SVM)",
       "Designed complete NLP pipeline with preprocessing",
       "Handcrafted features including TF-IDF and context windows"],
      ["LSTM", "BERT", "CRF", "SVM", "TensorFlow", "Keras", "Hugging Face", "Python", "NLP"],
      ["ai-ml", "nlp"],
      "https://github.com/SWETANKSINHA23/Sequence-Labeling-for-Language-ID-in-Hindi-English-Code-Mix",
      true),
    Project(2, "AI-Driven Electricity Demand Forecasting System",
      "",
      "Sep 2024 - Dec 2024",
      ["89-96% accuracy across multiple time horizons",
       "Interactive real-time forecasting dashboards",
       "25% improved scalability during demand simulations",
       "Multi-horizon framework for short/mid/long-term predictions"],
      ["Next.js", "TypeScript", "Python", "Flask", "scikit-learn", "MongoDB", "Tailwind CSS", "ApexCharts",
       "Node.js", "Prisma", "Random Forest", "XGBoost"],
      ["ai-ml", "data-science"],
      "https://github.com/SWETANKSINHA23/electricity-demand-model-2024",
      true),
    Project(3, "YOLOv8-Based Vehicle Detection System",
      "",
      "Oct 2023 - Dec 2023",
      ["70% detection accuracy with YOLOv8n",
       "15% reduction in parking violations",
       "20% improved data processing speed",
       "Real-time traffic analytics integration"],
      ["Python", "YOLOv8", "Supabase", "Roboflow", "Google Sheets", "Computer Vision", "Real-time Analytics"],
      ["ai-ml", "cv"],
      "https://github.com/SWETANKSINHA23",
      true)
  ]

  const AdditionalProjects: seq<MoreProject> := [
    MoreProject(4, "AWS Serverless Web Application",
      ["AWS Lambda", "API Gateway", "DynamoDB", "S3", "CloudFormation"],
      ["cloud"],
      "https://github.com/SWETANKSINHA23"),
    MoreProject(5, "LeetCode Solutions Repository",
      ["Python", "Java", "Data Structures", "Algorithms", "Dynamic Programming"],
      ["data-science"],
      "https://github.com/SWETANKSINHA23")
  ]

  /** `activeCategory === "all" || project.categoryIds.includes(activeCategory)` */
  predicate MatchesCategory(p: Project, activeCategory: string)
  {
    activeCategory == AllCategories || activeCategory in p.categoryIds
  }

  /** `items.some((x) => x.toLowerCase().includes(needle))` */
  function SomeIncludes(items: seq<string>, needle: string): (r: bool)
    ensures r <==> exists k: nat, i: nat :: k < |items| && OccursAt(Lower(items[k]), needle, i)
    decreases |items|
  {
    if items == [] then false
    else if Includes(Lower(items[0]), needle) then true
    else
      var rest := SomeIncludes(items[1..], needle);
      assert forall k: nat :: 0 < k < |items| ==> items[1..][k - 1] == items[k];
      rest
  }

  /** The search half of the filter, with the query lowered once as `searchLower`. */
  predicate MatchesSearch(p: Project, searchQuery: string)
  {
    var searchLower := Lower(searchQuery);
    searchQuery == ""
    || Includes(Lower(p.title), searchLower)
    || Includes(Lower(p.description), searchLower)
    || SomeIncludes(p.techStack, searchLower)
    || SomeIncludes(p.achievements, searchLower)
  }

  predicate Matches(p: Project, activeCategory: string, searchQuery: string)
  {
    MatchesCategory(p, activeCategory) && MatchesSearch(p, searchQuery)
  }

  /** `a` is `b` with some entries dropped and the rest kept in order. */
  ghost predicate SubsequenceOf<T>(a: seq<T>, b: seq<T>)
    decreases |b|
  {
    if a == [] then true
    else if b == [] then false
    else if a[0] == b[0] then SubsequenceOf(a[1..], b[1..])
    else SubsequenceOf(a, b[1..])
  }

  /** `filteredProjects`: `projects.filter(...)` on the category and search predicates. */
  function FilterProjects(ps: seq<Project>, activeCategory: string, searchQuery: string): (r: seq<Project>)
    ensures |r| <= |ps|
    ensures forall p :: p in r ==> p in ps && Matches(p, activeCategory, searchQuery)
    ensures forall p :: p in ps && Matches(p, activeCategory, searchQuery) ==> p in r
    decreases |ps|
  {
    if ps == [] then []
    else
      var rest := FilterProjects(ps[1..], activeCategory, searchQuery);
      assert forall p :: p in ps ==> p == ps[0] || p in ps[1..];
      if Matches(ps[0], activeCategory, searchQuery) then [ps[0]] + rest else rest
  }

  lemma {:induction false} SubsequenceOfSkip<T>(a: seq<T>, b: seq<T>, x: T)
    requires SubsequenceOf(a, b)
    ensures SubsequenceOf(a, [x] + b)
    decreases |b|, 1
  {
    if a != [] {
      var xb := [x] + b;
      assert xb[1..] == b;
      if a[0] == x {
        // Matching `x` first also works: `a[1..]` is a subsequence of the rest.
        SubsequenceOfTail(a, b);
      }
    }
  }

  lemma {:induction false} SubsequenceOfTail<T>(a: seq<T>, b: seq<T>)
    requires a != [] && SubsequenceOf(a, b)
    ensures SubsequenceOf(a[1..], b)
    decreases |b|, 0
  {
    if a[0] == b[0] {
      SubsequenceOfSkip(a[1..], b[1..], b[0]);
      assert [b[0]] + b[1..] == b;
    } else {
      SubsequenceOfTail(a, b[1..]);
      SubsequenceOfSkip(a[1..], b[1..], b[0]);
      assert [b[0]] + b[1..] == b;
    }
  }

  /** The filter keeps every copy of a matching project and no copy of any other. */
  lemma {:induction false} FilterKeepsCopies(ps: seq<Project>, activeCategory: string, searchQuery: string)
    ensures forall p ::
              multiset(FilterProjects(ps, activeCategory, searchQuery))[p] ==
              (if Matches(p, activeCategory, searchQuery) then multiset(ps)[p] else 0)
    decreases |ps|
  {
    if ps != [] {
      FilterKeepsCopies(ps[1..], activeCategory, searchQuery);
      var rest := FilterProjects(ps[1..], activeCategory, searchQuery);
      assert ps == [ps[0]] + ps[1..];
      assert multiset(ps) == multiset{ps[0]} + multiset(ps[1..]);
      if Matches(ps[0], activeCategory, searchQuery) {
        assert multiset([ps[0]] + rest) == multiset{ps[0]} + multiset(rest);
      }
    }
  }

  /** The filter keeps the page's order: its result is an ordered sub-list of the input. */
  lemma {:induction false} FilterKeepsOrder(ps: seq<Project>, activeCategory: string, searchQuery: string)
    ensures SubsequenceOf(FilterProjects(ps, activeCategory, searchQuery), ps)
    decreases |ps|
  {
    if ps != [] {
      FilterKeepsOrder(ps[1..], activeCategory, searchQuery);
      var rest := FilterProjects(ps[1..], activeCategory, searchQuery);
      if Matches(ps[0], activeCategory, searchQuery) {
        assert ([ps[0]] + rest)[1..] == rest;
      } else {
        SubsequenceOfSkip(rest, ps[1..], ps[0]);
        assert [ps[0]] + ps[1..] == ps;
      }
    }
  }

  /** With the "all" category and an empty query, every project is shown, in order. */
  lemma {:induction false} UnfilteredShowsAll(ps: seq<Project>)
    ensures FilterProjects(ps, AllCategories, "") == ps
    decreases |ps|
  {
    if ps != [] {
      UnfilteredShowsAll(ps[1..]);
      assert [ps[0]] + ps[1..] == ps;
    }
  }

  /**
   * A non-empty query matches exactly when its lowercase form is a substring
   * of the lowercased title, description, some tech-stack entry or some
   * achievement.
   */
  lemma SearchIsCaseInsensitiveSubstring(p: Project, searchQuery: string)
    requires searchQuery != ""
    ensures MatchesSearch(p, searchQuery) <==>
      var q := Lower(searchQuery);
      || (exists i: nat :: OccursAt(Lower(p.title), q, i))
      || (exists i: nat :: OccursAt(Lower(p.description), q, i))
      || (exists k: nat, i: nat :: k < |p.techStack| && OccursAt(Lower(p.techStack[k]), q, i))
      || (exists k: nat, i: nat :: k < |p.achievements| && OccursAt(Lower(p.achievements[k]), q, i))
  {
  }

  /** The "Showing X of Y projects" line of the filter panel. */
  datatype FilterInfo = FilterInfo(showing: nat, total: nat)

  /** What the page renders for a filter state. */
  datatype PageView = PageView(
    grid: seq<Project>,            // one ProjectCard per entry
    filterInfo: Option<FilterInfo>,
    emptyState: bool,             // "No projects found" with its Clear Filters button
    more: seq<MoreProject>)        // the "More Projects & Contributions" cards

  function View(activeCategory: string, searchQuery: string): (v: PageView)
    ensures v.grid == FilterProjects(Projects, activeCategory, searchQuery)
    ensures v.filterInfo.Some? <==> activeCategory != AllCategories || searchQuery != ""
    ensures v.filterInfo.Some? ==>
      v.filterInfo.value.showing == |v.grid| <= v.filterInfo.value.total == |Projects|
    ensures v.emptyState <==> |v.grid| == 0
    ensures v.more == AdditionalProjects
  {
    var shown := FilterProjects(Projects, activeCategory, searchQuery);
    PageView(
      shown,
      if activeCategory != AllCategories || searchQuery != "" then Some(FilterInfo(|shown|, |Projects|)) else None,
      !(|shown| > 0),
      AdditionalProjects)
  }

  /** The additional projects are the same whatever the filter state. */
  lemma AdditionalIgnoresFilters(c1: string, q1: string, c2: string, q2: string)
    ensures View(c1, q1).more == View(c2, q2).more == AdditionalProjects
  {
  }

  /**
   * None of the featured projects carries the "cloud" category, so that
   * button empties the grid although the additional AWS project below is
   * tagged "cloud".
   */
  lemma CloudFilterShowsEmptyState()
    ensures View("cloud", "").emptyState
    ensures exists k :: 0 <= k < |AdditionalProjects| && "cloud" in AdditionalProjects[k].categoryIds
  {
    assert AdditionalProjects[0].categoryIds == ["cloud"];
    assert Projects[0].categoryIds == ["ai-ml", "nlp"];
    assert Projects[1].categoryIds == ["ai-ml", "data-science"];
    assert Projects[2].categoryIds == ["ai-ml", "cv"];
    NoCategoryMatchIsEmpty(Projects, "cloud", "");
  }

  /** When no project carries the chosen category, nothing is shown, whatever the query. */
  lemma NoCategoryMatchIsEmpty(ps: seq<Project>, activeCategory: string, searchQuery: string)
    requires forall k :: 0 <= k < |ps| ==> !MatchesCategory(ps[k], activeCategory)
    ensures FilterProjects(ps, activeCategory, searchQuery) == []
  {
  }

  /** The cleared state shows the whole list without the filter line. */
  lemma ClearedViewShowsAll()
    ensures FilterProjects(Projects, AllCategories, "") == Projects
    ensures View(AllCategories, "").filterInfo.None? && View(AllCategories, "").grid == Projects
  {
    UnfilteredShowsAll(Projects);
  }

  /**
   * The page's two `useState` hooks and the handlers that set them, over the
   * list of projects the page filters.
   */
  class FilterState {
    const projects: seq<Project>
    var activeCategory: string
    var searchQuery: string

    constructor (projects: seq<Project>)
      ensures this.projects == projects
      ensures activeCategory == AllCategories && searchQuery == ""
    {
      this.projects := projects;
      activeCategory := AllCategories;
      searchQuery := "";
    }

    /** The `filteredProjects` memo for the current state. */
    function Filtered(): seq<Project>
      reads this
    {
      FilterProjects(projects, activeCategory, searchQuery)
    }

    /** A category button: `setActiveCategory(category.id)`. */
    method SelectCategory(id: string)
      modifies this
      ensures activeCategory == id && searchQuery == old(searchQuery)
    {
      activeCategory := id;
    }

    /** Typing in the search box: `setSearchQuery(e.target.value)`; the X button passes "". */
    method SetSearchQuery(value: string)
      modifies this
      ensures searchQuery == value && activeCategory == old(activeCategory)
    {
      searchQuery := value;
    }

    /** `clearFilters`: back to "all" and "", which shows every project. */
    method ClearFilters()
      modifies this
      ensures activeCategory == AllCategories && searchQuery == ""
      ensures Filtered() == projects
    {
      activeCategory := AllCategories;
      searchQuery := "";
      UnfilteredShowsAll(projects);
    }
  }

  /** The page as it is mounted: no filter over the featured projects. */
  method NewPage() returns (page: FilterState)
    ensures fresh(page)
    ensures page.projects == Projects && page.activeCategory == AllCategories && page.searchQuery == ""
  {
    page := new FilterState(Projects);
  }
}
