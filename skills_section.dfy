/**
 * The skills section of the home page: the technology icon table and its
 * background lookup, the fallback chain of the icon component, the choice
 * between progress bars and tags for a skill category, and the hover
 * effects of the certification cards.
 */
module SkillsSection {
  import opened Wrappers

  /** An entry of `techIcons`: an SVG address (possibly empty) and a brand colour. */
  datatype Tech = Tech(icon: string, color: string)

  /** The address every SVG logo of the table starts with. */
  const IconBase: string := "https://cdn.jsdelivr.net/npm/simple-icons@v9/icons/"

  const TechIcons: map<string, Tech> := map[
    "Python" := Tech(IconBase + "python.svg", "#3776AB"),
    "Java" := Tech(IconBase + "openjdk.svg", "#ED8B00"),
    "SQL" := Tech(IconBase + "mysql.svg", "#4479A1"),
    "JavaScript" := Tech(IconBase + "javascript.svg", "#F7DF1E"),
    "HTML" := Tech(IconBase + "html5.svg", "#E34F26"),
    "CSS" := Tech(IconBase + "css3.svg", "#1572B6"),
    "Tailwind CSS" := Tech(IconBase + "tailwindcss.svg", "#06B6D4"),
    "React.js" := Tech(IconBase + "react.svg", "#61DAFB"),
    "Next.js" := Tech(IconBase + "nextdotjs.svg", "#FFFFFF"),
    "TensorFlow" := Tech(IconBase + "tensorflow.svg", "#FF6F00"),
    "Scikit-learn" := Tech(IconBase + "scikitlearn.svg", "#F7931E"),
    "YOLOv8" := Tech("", "#8B5CF6"),
    "Pandas" := Tech(IconBase + "pandas.svg", "#150458"),
    "NumPy" := Tech(IconBase + "numpy.svg", "#013243"),
    "Matplotlib" := Tech("", "#11557C"),
    "MongoDB" := Tech(IconBase + "mongodb.svg", "#47A248"),
    "Supabase" := Tech(IconBase + "supabase.svg", "#3ECF8E"),
    "Google Sheets" := Tech(IconBase + "googlesheets.svg", "#34A853"),
    "Docker" := Tech(IconBase + "docker.svg", "#2496ED"),
    "Git" := Tech(IconBase + "git.svg", "#F05032"),
    "GitHub" := Tech(IconBase + "github.svg", "#FFFFFF"),
    "AWS (EC2, S3, Lambda)" := Tech(IconBase + "amazonaws.svg", "#FF9900")
  ]
  const BgMap: map<string, string> := map[
    "Python" := "bg-blue-500/20",
    "Java" := "bg-orange-500/20",
    "SQL" := "bg-blue-500/20",
    "JavaScript" := "bg-slate-400/20",
    "HTML" := "bg-orange-500/20",
    "CSS" := "bg-blue-500/20",
    "Tailwind CSS" := "bg-cyan-500/20",
    "React.js" := "bg-cyan-400/20",
    "Next.js" := "bg-white/15",
    "TensorFlow" := "bg-orange-600/20",
    "Scikit-learn" := "bg-orange-500/20",
    "YOLOv8" := "bg-purple-500/20",
    "Pandas" := "bg-purple-900/30",
    "NumPy" := "bg-blue-900/30",
    "Matplotlib" := "bg-blue-500/20",
    "MongoDB" := "bg-green-500/20",
    "Supabase" := "bg-green-400/20",
    "Google Sheets" := "bg-green-500/20",
    "Docker" := "bg-blue-500/20",
    "Git" := "bg-orange-500/20",
    "GitHub" := "bg-white/15",
    "AWS (EC2, S3, Lambda)" := "bg-orange-500/20"
  ]

  const DefaultBg: string := "bg-primary/20"
  /** The colour used when a name has no entry in `techIcons`. */
  const DefaultColor: string := "#6366f1"
  /** The colour of the BarChart3 icon drawn for Matplotlib. */
  const MatplotlibColor: string := "#61DAFB"
  /** The names whose logo is drawn inverted. */
  const InvertNames: seq<string> := ["Next.js", "GitHub", "Pandas", "NumPy"]

  /** `bgMap[name] || "bg-primary/20"`: a missing or empty entry falls back. */
  function GetTechBgClass(name: string): (cls: string)
    ensures name in BgMap && BgMap[name] != "" ==> cls == BgMap[name]
    ensures !(name in BgMap && BgMap[name] != "") ==> cls == DefaultBg
  {
    if name in BgMap && BgMap[name] != "" then BgMap[name] else DefaultBg
  }

  /** Every known technology has a background of its own, and only those do. */
  lemma BackgroundsCoverIcons(name: string)
    ensures BgMap.Keys == TechIcons.Keys
    ensures GetTechBgClass(name) == (if name in TechIcons then BgMap[name] else DefaultBg)
  {
    BackgroundKeys();
    BackgroundsNonEmpty();
  }

  /** The background table and the icon table list the same technologies. */
  lemma BackgroundKeys()
    ensures BgMap.Keys == TechIcons.Keys
  {
    var known := {"Python", "Java", "SQL", "JavaScript", "HTML", "CSS", "Tailwind CSS", "React.js", "Next.js", "TensorFlow", "Scikit-learn", "YOLOv8", "Pandas", "NumPy", "Matplotlib", "MongoDB", "Supabase", "Google Sheets", "Docker", "Git", "GitHub", "AWS (EC2, S3, Lambda)"};
    assert BgMap.Keys == known;
    assert TechIcons.Keys == known;
  }

  /** No entry of the background table is empty, so the fallback never hides one. */
  lemma BackgroundsNonEmpty()
    ensures forall n :: n in BgMap ==> BgMap[n] != ""
  {
  }

  /** `name.charAt(0)`: the first character, or "" for an empty name. */
  function FirstChar(name: string): (r: string)
    ensures |r| == if name == "" then 0 else 1
    ensures r == name[..|r|]
  {
    if name == "" then "" else name[..1]
  }

  datatype ImageFilter = InvertBright | BrightSaturate

  /** What the icon component draws inside its round wrapper. */
  datatype Glyph =
    | Letter(text: string, color: string)
    | EyeIcon(color: string)
    | BarChartIcon(color: string)
    | Logo(src: string, filter: ImageFilter)

  /** The wrapper's background class and glow colour, and its content. */
  datatype IconView = IconView(bg: string, glow: string, glyph: Glyph)

  /**
   * `TechIcon`: unknown name, then the two names drawn with Lucide icons,
   * then a failed or empty logo, and only then the logo image itself.
   */
  function TechIcon(name: string, hasError: bool): (v: IconView)
    ensures v.bg == GetTechBgClass(name)
    ensures v.glow == (if name in TechIcons && TechIcons[name].color != "" then TechIcons[name].color else DefaultColor)
    ensures name !in TechIcons ==> v.glyph == Letter(FirstChar(name), DefaultColor)
    ensures name in TechIcons && name == "YOLOv8" ==> v.glyph == EyeIcon(TechIcons[name].color)
    ensures name in TechIcons && name == "Matplotlib" ==> v.glyph == BarChartIcon(MatplotlibColor)
    ensures v.glyph.Logo? <==> name in TechIcons && name != "YOLOv8" && name != "Matplotlib" && !hasError && TechIcons[name].icon != ""
    ensures v.glyph.Logo? ==> v.glyph.src == TechIcons[name].icon && (v.glyph.filter == InvertBright <==> name in InvertNames)
    ensures v.glyph.Letter? && name in TechIcons ==> v.glyph == Letter(FirstChar(name), TechIcons[name].color)
  {
    var glow := if name in TechIcons && TechIcons[name].color != "" then TechIcons[name].color else DefaultColor;
    var glyph :=
      if name !in TechIcons then Letter(FirstChar(name), DefaultColor)
      else
        var tech := TechIcons[name];
        if name == "YOLOv8" then EyeIcon(tech.color)
        else if name == "Matplotlib" then BarChartIcon(MatplotlibColor)
        else if hasError || tech.icon == "" then Letter(FirstChar(name), tech.color)
        else Logo(tech.icon, if name in InvertNames then InvertBright else BrightSaturate);
    IconView(GetTechBgClass(name), glow, glyph)
  }

  /**
   * YOLOv8 and Matplotlib have no logo address, yet they are drawn with their
   * Lucide icons whatever the error flag: those cases come before the
   * empty-address fallback.
   */
  lemma LucideNamesPrecedeFallback(hasError: bool)
    ensures "YOLOv8" in TechIcons && TechIcons["YOLOv8"].icon == ""
    ensures "Matplotlib" in TechIcons && TechIcons["Matplotlib"].icon == ""
    ensures TechIcon("YOLOv8", hasError).glyph == EyeIcon("#8B5CF6")
    ensures TechIcon("Matplotlib", hasError).glyph == BarChartIcon(MatplotlibColor)
  {
  }

  /** After an error a known name is drawn as its first letter, never as the logo. */
  lemma ErrorShowsLetter(name: string)
    requires name in TechIcons && name != "YOLOv8" && name != "Matplotlib"
    ensures TechIcon(name, true).glyph == Letter(FirstChar(name), TechIcons[name].color)
  {
  }

  /** The four inverted names all have logos, so each is drawn inverted until an error. */
  lemma InvertedNamesHaveLogos(k: nat)
    requires k < |InvertNames|
    ensures InvertNames[k] in TechIcons && TechIcons[InvertNames[k]].icon != ""
    ensures TechIcon(InvertNames[k], false).glyph.Logo?
    ensures TechIcon(InvertNames[k], false).glyph.filter == InvertBright
  {
  }

  /** The `hasError` flag of one icon: set by the logo's `onError`, never cleared. */
  class TechIconState {
    const name: string
    var hasError: bool

    constructor (name: string)
      ensures this.name == name && !hasError
    {
      this.name := name;
      hasError := false;
    }

    method OnError()
      modifies this
      ensures hasError
    {
      hasError := true;
    }

    function View(): IconView
      reads this
    {
      TechIcon(name, hasError)
    }
  }

  /** A skill of a category: with a level (Languages) or a bare name (the others). */
  datatype Skill = Rated(name: string, level: nat) | Plain(skill: string)

  datatype Category = Category(title: string, skills: seq<Skill>)

  const SkillCategories: seq<Category> := [
    Category("Languages", [Rated("Python", 95), Rated("Java", 80), Rated("SQL", 85), Rated("JavaScript", 88)]),
    Category("Frameworks & Libraries", [
      Plain("HTML"), Plain("CSS"), Plain("Tailwind CSS"), Plain("React.js"), Plain("Next.js"), Plain("TensorFlow"),
      Plain("Scikit-learn"), Plain("YOLOv8"), Plain("Pandas"), Plain("NumPy"), Plain("Matplotlib")]),
    Category("Databases & Tools", [
      Plain("MongoDB"), Plain("Supabase"), Plain("Google Sheets"), Plain("Docker"), Plain("Git"), Plain("GitHub"),
      Plain("AWS (EC2, S3, Lambda)")])
  ]

  /** A progress bar: the name, the `level%` label and the target width in percent. */
  datatype Bar = Bar(name: string, percentShown: nat, width: nat)

  datatype CategoryView = Bars(bars: seq<Bar>) | Tags(tags: seq<string>)

  /** The cast in the render: a category is all rated or all plain. */
  predicate Uniform(c: Category)
  {
    forall i :: 0 <= i < |c.skills| ==> c.skills[i].Rated? == c.skills[0].Rated?
  }

  /** `typeof skills[0] === "object"` picks bars, anything else (an empty list too) tags. */
  function RenderCategory(c: Category): (v: CategoryView)
    requires Uniform(c)
    ensures v.Bars? <==> |c.skills| > 0 && c.skills[0].Rated?
    ensures v.Bars? ==> |v.bars| == |c.skills| && forall i :: 0 <= i < |v.bars| ==>
              v.bars[i] == Bar(c.skills[i].name, c.skills[i].level, c.skills[i].level)
    ensures v.Tags? ==> |v.tags| == |c.skills| && forall i :: 0 <= i < |v.tags| ==> v.tags[i] == c.skills[i].skill
  {
    if |c.skills| > 0 && c.skills[0].Rated? then
      Bars(seq(|c.skills|, i requires 0 <= i < |c.skills| => Bar(c.skills[i].name, c.skills[i].level, c.skills[i].level)))
    else
      Tags(seq(|c.skills|, i requires 0 <= i < |c.skills| => c.skills[i].skill))
  }

  /** Languages are shown as bars and the two other categories as tags; every skill named on the page has an icon entry. */
  lemma CategoriesRender()
    ensures forall k :: 0 <= k < |SkillCategories| ==> Uniform(SkillCategories[k])
    ensures RenderCategory(SkillCategories[0]).Bars?
    ensures RenderCategory(SkillCategories[1]).Tags? && RenderCategory(SkillCategories[2]).Tags?
    ensures forall k, i :: 0 <= k < |SkillCategories| && 0 <= i < |SkillCategories[k].skills| ==>
              (if SkillCategories[k].skills[i].Rated? then SkillCategories[k].skills[i].name else SkillCategories[k].skills[i].skill) in TechIcons
  {
  }

  datatype CardAnimation = Tilt | Shine | Glow | Zoom | Flip

  datatype Certification = Certification(title: string, org: string, animation: CardAnimation, logoText: Option<string>, link: string)

  /** `certifications`, reduced to the fields the card's behaviour depends on. */
  const Certifications: seq<Certification> := [
    Certification("Oracle Java SE 8 Programmer", "Oracle", Tilt, Some("ORACLE"), "https://drive.google.com/file/d/1VAKMugHfaM8jg9I1-eFgLWH_GiVXf9nX/view?usp=sharing"),
    Certification("Oracle MySQL 8.0 DBA", "Oracle", Shine, Some("MySQL"), "https://drive.google.com/file/d/1RYDOUH-fNWRyzYY4lO10mfhmqc1BWUMU/view?usp=sharing"),
    Certification("Cloud Computing", "IIT Kharagpur", Zoom, Some("IIT"), "https://drive.google.com/file/d/1MsWgaLr7E1Dx7YN0KyHL32vyMuXKsgcp/view?usp=sharing"),
    Certification("Complete Data Science, ML, DL, NLP", "Udemy", Flip, Some("U"), "https://drive.google.com/file/d/1hruNJlLkWSHYmoNhHlyoxJ2h8xwykkwx/view?usp=sharing"),
    Certification("Generative AI with LLMs", "Coursera", Zoom, Some("C"), "https://drive.google.com/file/d/1qy27OhLZ0EPFpv8cuDkyc-pUdSuQj2En/view?usp=sharing")
  ]

  /** What a certification card's hover and decoration depend on. */
  datatype CardEffects = CardEffects(rotateX: nat, rotateY: nat, pinkShadow: bool, shineSweep: bool, glowBorder: bool)

  function Effects(a: CardAnimation): (e: CardEffects)
    ensures e.rotateX == e.rotateY == (if a == Tilt then 3 else 0)
    ensures e.pinkShadow <==> a == Glow
    ensures e.glowBorder <==> a == Glow
    ensures e.shineSweep <==> a == Shine
  {
    CardEffects(if a == Tilt then 3 else 0, if a == Tilt then 3 else 0, a == Glow, a == Shine, a == Glow)
  }

  /** "zoom" and "flip" are accepted values with no effect of their own on the card. */
  lemma ZoomAndFlipAreInert()
    ensures Effects(Zoom) == Effects(Flip) == CardEffects(0, 0, false, false, false)
  {
  }

  datatype CardLogo = LogoText(text: string) | LogoIcon

  /** `cert.logoText ? <span>{logoText}</span> : <IconComponent/>`. */
  function CardLogoOf(c: Certification): (l: CardLogo)
    ensures l.LogoText? <==> c.logoText.Some? && c.logoText.value != ""
    ensures l.LogoText? ==> l.text == c.logoText.value
  {
    if c.logoText.Some? && c.logoText.value != "" then LogoText(c.logoText.value) else LogoIcon
  }

  /**
   * Of the five certificates none uses the glow animation and every one has a
   * logo text: the pink border and the centred icon are never drawn.
   */
  lemma CertificationCards()
    ensures forall k :: 0 <= k < |Certifications| ==> !Effects(Certifications[k].animation).glowBorder
    ensures forall k :: 0 <= k < |Certifications| ==> CardLogoOf(Certifications[k]).LogoText?
    ensures forall k :: 0 <= k < |Certifications| ==> (Effects(Certifications[k].animation).rotateX > 0 <==> k == 0)
  {
  }
}
