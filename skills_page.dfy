/**
 * The skills page: the language cards (level badge, optional detail chips,
 * proficiency bar), the proficiency bars of the framework and database
 * grids, and the domain cards that show five skills and a "+N" badge.
 */
module SkillsPage {
  import opened Wrappers
  import opened Truncation

  /** The skills a domain card shows before the "+N" badge. */
  const MaxDomainSkills: nat := 5

  /** The level that earns the primary-coloured badge. */
  const AdvancedLevel: string := "Advanced"

  datatype Language = Language(name: string, proficiency: nat, level: string, experience: string, details: Option<seq<string>>)

  datatype SkillCardView = SkillCardView(
    primaryBadge: bool,
    levelText: string,
    chips: Option<seq<string>>,
    percentText: nat,
    barWidth: nat)

  /** `SkillCard`. */
  function RenderSkillCard(l: Language): (v: SkillCardView)
    ensures v.primaryBadge <==> l.level == AdvancedLevel
    ensures v.levelText == l.level
    ensures v.chips.Some? <==> l.details.Some?
    ensures v.chips.Some? ==> v.chips.value == l.details.value
    ensures v.percentText == v.barWidth == l.proficiency
  {
    SkillCardView(l.level == AdvancedLevel, l.level, l.details, l.proficiency, l.proficiency)
  }

  const ProgrammingLanguages: seq<Language> := [
    Language("Python", 95, "Advanced", "3+ years", Some(["TensorFlow", "Keras", "Pandas", "NumPy", "Matplotlib", "Scikit-learn"])),
    Language("JavaScript", 85, "Intermediate", "2+ years", Some(["React.js", "Next.js", "Node.js", "TypeScript"])),
    Language("Java", 80, "Intermediate", "2+ years", Some(["OOP", "Algorithmic Problem-Solving", "Data Structures"])),
    Language("SQL", 85, "Advanced", "2+ years", Some(["MySQL", "MongoDB", "Complex Queries", "Optimization"]))
  ]

  /** An entry of the framework or database grid: a name and a bar. */
  datatype Proficiency = Proficiency(name: string, proficiency: nat)

  const Frameworks: seq<Proficiency> := [
    Proficiency("React.js", 85), Proficiency("Next.js", 80), Proficiency("TensorFlow", 90),
    Proficiency("Scikit-learn", 90), Proficiency("YOLOv8", 85), Proficiency("Tailwind CSS", 90),
    Proficiency("Pandas & NumPy", 90), Proficiency("Flask", 80), Proficiency("Keras", 90)
  ]

  const Databases: seq<Proficiency> := [
    Proficiency("MongoDB", 85), Proficiency("MySQL", 85), Proficiency("Supabase", 80),
    Proficiency("AWS", 80), Proficiency("Docker", 75)
  ]

  /** `width: ${proficiency}%`: the bar's target width in percent of its track. */
  function BarWidth(p: Proficiency): nat
  {
    p.proficiency
  }

  /**
   * Every bar on the page ends inside its track: all proficiencies are at
   * most 100, and only Python and SQL get the primary badge.
   */
  lemma BarsFitTrack()
    ensures forall k :: 0 <= k < |ProgrammingLanguages| ==> RenderSkillCard(ProgrammingLanguages[k]).barWidth <= 100
    ensures forall k :: 0 <= k < |Frameworks| ==> BarWidth(Frameworks[k]) <= 100
    ensures forall k :: 0 <= k < |Databases| ==> BarWidth(Databases[k]) <= 100
    ensures forall k :: 0 <= k < |ProgrammingLanguages| ==> (RenderSkillCard(ProgrammingLanguages[k]).primaryBadge <==> k == 0 || k == 3)
  {
  }

  datatype Domain = Domain(title: string, skills: seq<string>, projects: string, level: string)

  const DomainExpertise: seq<Domain> := [
    Domain("Artificial Intelligence & Machine Learning",
      ["LSTM", "BERT", "CRF", "SVM", "Random Forest", "XGBoost", "YOLOv8", "CNN", "RNN"], "3 major AI projects", "Advanced"),
    Domain("Natural Language Processing",
      ["Language Identification", "Text Preprocessing", "TF-IDF", "Tokenization", "Hugging Face"], "Hindi-English code-mix classifier", "Intermediate-Advanced"),
    Domain("Computer Vision",
      ["Object Detection", "YOLOv8", "Image Preprocessing", "Roboflow"], "EZ Parkade vehicle detection", "Intermediate"),
    Domain("Cloud & DevOps",
      ["Serverless Architecture", "AWS Services", "Docker", "CI/CD"], "AWS serverless applications", "Intermediate")
  ]

  datatype DomainCardView = DomainCardView(title: string, chips: seq<string>, moreBadge: Option<nat>, projects: string, level: string)

  function RenderDomain(d: Domain): (v: DomainCardView)
    ensures v.chips == Shown(d.skills, MaxDomainSkills)
    ensures v.moreBadge == OverflowBadge(|d.skills|, MaxDomainSkills)
    ensures v.title == d.title && v.projects == d.projects && v.level == d.level
  {
    DomainCardView(d.title, Shown(d.skills, MaxDomainSkills), OverflowBadge(|d.skills|, MaxDomainSkills), d.projects, d.level)
  }

  /** Chips plus badge count are all the domain's skills, the chips being the first five in order. */
  lemma DomainCardAccountsForSkills(d: Domain)
    ensures |RenderDomain(d).chips| + RenderDomain(d).moreBadge.GetOr(0) == |d.skills|
    ensures RenderDomain(d).chips == d.skills[..|RenderDomain(d).chips|]
    ensures RenderDomain(d).moreBadge.Some? <==> |d.skills| > MaxDomainSkills
  {
    ShownPlusHidden(d.skills, MaxDomainSkills);
  }

  /** Only the machine-learning card overflows: it shows five of its nine skills and "+4". */
  lemma DomainBadges()
    ensures RenderDomain(DomainExpertise[0]).moreBadge == Some(4)
    ensures forall k :: 1 <= k < |DomainExpertise| ==> RenderDomain(DomainExpertise[k]).moreBadge == None
    ensures RenderDomain(DomainExpertise[0]).chips == ["LSTM", "BERT", "CRF", "SVM", "Random Forest"]
  {
  }
}
