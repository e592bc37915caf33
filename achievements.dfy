/**
 * The achievements section of the home page: the badge kind of each card
 * selects its icon, its style and whether the badge pulses; every optional
 * field of an achievement is rendered exactly when it is present; and each
 * card links to its achievement's page.
 */
module Achievements {
  import opened Wrappers
  import LazyImage

  datatype BadgeKind = Gold | Silver | Bronze | Ongoing

  /** The lucide icons the section uses. */
  datatype Icon = Trophy | Medal | Code | Shield | Crown | AwardIcon

  datatype BadgeStyle = BadgeStyle(bg: string, text: string, glow: string, icon: Icon)

  /** `badgeStyles[achievement.badge]`. */
  function StyleOf(b: BadgeKind): BadgeStyle
  {
    match b
    case Gold => BadgeStyle("bg-gradient-to-r from-slate-500 to-zinc-500", "text-slate-100", "shadow-lg shadow-slate-500/30", Crown)
    case Silver => BadgeStyle("bg-gradient-to-r from-slate-300 to-gray-400", "text-gray-800", "shadow-lg shadow-gray-400/30", Medal)
    case Bronze => BadgeStyle("bg-gradient-to-r from-orange-400 to-orange-600", "text-orange-900", "shadow-lg shadow-orange-500/30", AwardIcon)
    case Ongoing => BadgeStyle("bg-gradient-to-r from-blue-500 to-cyan-500", "text-blue-900", "shadow-lg shadow-blue-500/30", Code)
  }

  /** Every badge kind has its own style: no two kinds look alike. */
  lemma StylesDistinct(a: BadgeKind, b: BadgeKind)
    ensures StyleOf(a) == StyleOf(b) <==> a == b
  {
    if a != b {
      assert StyleOf(a).icon != StyleOf(b).icon;
    }
  }

  /** The card's centre icon: gold → Trophy, silver → Medal, ongoing → Code, anything else → Shield. */
  function CardIcon(b: BadgeKind): (i: Icon)
    ensures i == Trophy <==> b == Gold
    ensures i == Medal <==> b == Silver
    ensures i == Code <==> b == Ongoing
    ensures i == Shield <==> b == Bronze
  {
    if b == Gold then Trophy else if b == Silver then Medal else if b == Ongoing then Code else assert b == Bronze; Shield
  }

  /** The centre icon's colour class. */
  function IconColor(b: BadgeKind): (c: string)
    ensures b == Gold ==> c == "text-slate-200"
    ensures b == Silver ==> c == "text-slate-300"
    ensures b == Ongoing || b == Bronze ==> c == "text-gray-400"
  {
    if b == Gold then "text-slate-200" else if b == Silver then "text-slate-300" else if b == Ongoing then "text-gray-400" else "text-gray-400"
  }

  /** `animate-pulse` on the status badge. */
  predicate Pulses(b: BadgeKind)
  {
    b == Gold
  }

  /** An achievement, reduced to what the card's structure depends on. */
  datatype Achievement = Achievement(
    title: string,
    date: string,
    organization: string,
    badge: BadgeKind,
    badgeLabel: string,
    credentialId: Option<string>,
    stats: Option<string>,
    projectName: Option<string>,
    projectIcon: Option<string>,
    projectContext: Option<string>,
    techStack: Option<seq<string>>,
    description: Option<string>,
    link: Option<string>)

  const AchievementList: seq<Achievement> := [
    Achievement("AIU International Anveshan Winner", "March 2025", "Association of Indian Universities", Gold, "WINNER",
      None, None, Some("AgriConnect Platform"), Some("\U{1F33E}"), Some("Agricultural Digital Marketplace"),
      Some(["React.js", "Node.js", "MongoDB", "Tailwind CSS"]),
      Some("Built agricultural marketplace connecting farmers, customers, and vendors"),
      Some("https://happenings.lpu.in/lpu-innovators-triumphed-at-aiu-international-anveshan-2025-pioneering-solutions-for-a-better-future/")),
    Achievement("Cognitia'25 Winner (LPU)", "February 2025", "Lovely Professional University", Gold, "1ST PLACE",
      None, None, Some("MoltenSight AI"), Some("\U{1F525}"), Some("Industrial IoT Monitoring System"),
      Some(["Python", "IoT Sensors", "ML", "Real-time Analytics"]),
      Some("AI-powered molten metal monitoring for smart foundries"),
      Some("https://drive.google.com/drive/folders/13Ob9pawiy7DzxuK9_SHw58BdMmuLi_2A?usp=sharing")),
    Achievement("Smart India Hackathon Finalist", "December 2024", "Ministry of Education, Govt. of India", Silver, "FINALIST",
      None, None, Some("SmartGrid Forecaster"), Some("\U{26A1}"), Some("Predictive Energy Analytics"),
      Some(["Next.js", "Python", "scikit-learn", "Flask"]),
      Some("AI-driven electricity demand forecasting for smart grid optimization"),
      Some("https://drive.google.com/file/d/1nREgEnkO8Lw8LdnbPq25e6HIAF35_kUj/view?usp=sharing")),
    Achievement("Hack Verse 2024 Winner", "March 2024", "Linux Socials", Gold, "WINNER",
      Some("HV24/333"), None, Some("ContainerAI Dashboard"), Some("\U{1F433}"), Some("AI-Powered Containerized Dashboard"),
      Some(["Docker", "Streamlit", "LangChain", "Python"]),
      Some("Built containerized AI dashboard using Docker, LangChain, and Streamlit"),
      Some("https://drive.google.com/file/d/1DFhK164XXmAjvxYpYINYfkTNn5s5OaJw/view?usp=sharing")),
    Achievement("Cipher Thon 2.0 Finalist", "February 2024", "CipherSchools", Silver, "FINAL ROUND",
      None, None, None, None, None, None, None,
      Some("https://drive.google.com/file/d/1SJkMjKyI2-SQ2cpTb95D80G4KZcuJDU6/view?usp=sharing")),
    Achievement("250+ LeetCode Problems", "Ongoing", "LeetCode", Ongoing, "250+ SOLVED",
      None, Some("Easy: 100+ | Medium: 120+ | Hard: 30+"), None, None, None, None, None,
      Some("https://leetcode.com/"))
  ]

  /** `{value && …}` on an optional string: rendered only when present and non-empty. */
  function WhenText(s: Option<string>): (r: Option<string>)
    ensures r.Some? <==> s.Some? && s.value != ""
    ensures r.Some? ==> r.value == s.value
  {
    if s.Some? && s.value != "" then s else None
  }

  datatype ProjectBadge = ProjectBadge(icon: Option<string>, name: string)

  datatype CardBody = CardBody(
    title: string,
    project: Option<ProjectBadge>,
    context: Option<string>,
    description: Option<string>,
    organization: string,
    techTags: Option<seq<string>>,
    date: string,
    credential: Option<string>,
    stats: Option<string>)

  datatype Card = Card(
    href: Option<string>,
    icon: Icon,
    iconColor: string,
    glow: string,
    badgeBg: string,
    badgeText: string,
    badgeLabel: string,
    pulse: bool,
    image: LazyImage.Layers,
    body: CardBody)

  /**
   * One card, with its image in state `img`. An array is truthy even when it
   * is empty, so a present tech stack always gets its (possibly empty) row.
   */
  function RenderCard(a: Achievement, img: LazyImage.LoadState): (c: Card)
    ensures c.href == a.link
    ensures c.icon == CardIcon(a.badge) && c.iconColor == IconColor(a.badge)
    ensures c.glow == StyleOf(a.badge).glow && c.badgeBg == StyleOf(a.badge).bg && c.badgeText == StyleOf(a.badge).text
    ensures c.pulse <==> a.badge == Gold
    ensures c.badgeLabel == a.badgeLabel
    ensures c.image == LazyImage.Render(img)
    ensures c.body.title == a.title && c.body.organization == a.organization && c.body.date == a.date
    ensures c.body.project.Some? <==> a.projectName.Some? && a.projectName.value != ""
    ensures c.body.project.Some? ==> c.body.project.value == ProjectBadge(a.projectIcon, a.projectName.value)
    ensures c.body.context == WhenText(a.projectContext)
    ensures c.body.description == WhenText(a.description)
    ensures c.body.techTags == a.techStack
    ensures c.body.credential == WhenText(a.credentialId)
    ensures c.body.stats == WhenText(a.stats)
  {
    var style := StyleOf(a.badge);
    var project := if a.projectName.Some? && a.projectName.value != "" then Some(ProjectBadge(a.projectIcon, a.projectName.value)) else None;
    Card(a.link, CardIcon(a.badge), IconColor(a.badge), style.glow, style.bg, style.text, a.badgeLabel, Pulses(a.badge),
      LazyImage.Render(img),
      CardBody(a.title, project, WhenText(a.projectContext), WhenText(a.description), a.organization, a.techStack,
        a.date, WhenText(a.credentialId), WhenText(a.stats)))
  }

  /**
   * Over the section's data: every card links somewhere, no card is bronze so
   * the Shield icon never appears, three cards pulse, and only the project
   * cards carry a tech row.
   */
  lemma SectionCards(img: LazyImage.LoadState)
    ensures forall k :: 0 <= k < |AchievementList| ==> RenderCard(AchievementList[k], img).href.Some?
    ensures forall k :: 0 <= k < |AchievementList| ==> RenderCard(AchievementList[k], img).icon != Shield
    ensures forall k :: 0 <= k < |AchievementList| ==> (RenderCard(AchievementList[k], img).pulse <==> k in {0, 1, 3})
    ensures forall k :: 0 <= k < |AchievementList| ==>
              (RenderCard(AchievementList[k], img).body.techTags.Some? <==> RenderCard(AchievementList[k], img).body.project.Some?)
  {
    EveryAchievementLinks();
    NoBronze();
    GoldAt();
    TechStackWithProject();
  }

  lemma EveryAchievementLinks()
    ensures forall k :: 0 <= k < |AchievementList| ==> AchievementList[k].link.Some?
  {
  }

  lemma NoBronze()
    ensures forall k :: 0 <= k < |AchievementList| ==> AchievementList[k].badge != Bronze
  {
  }

  lemma GoldAt()
    ensures forall k :: 0 <= k < |AchievementList| ==> (AchievementList[k].badge == Gold <==> k in {0, 1, 3})
  {
  }

  lemma TechStackWithProject()
    ensures forall k :: 0 <= k < |AchievementList| ==>
              (AchievementList[k].techStack.Some? <==> AchievementList[k].projectName.Some? && AchievementList[k].projectName.value != "")
  {
  }

  /** The centre icon is chosen apart from the style table: it agrees with the style's own icon only for silver and ongoing. */
  lemma CardIconIgnoresStyleIcon(b: BadgeKind)
    ensures CardIcon(b) == StyleOf(b).icon <==> b == Silver || b == Ongoing
  {
  }
}
