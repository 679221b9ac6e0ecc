/** The skills section: the gate, the defaults for the optional lists, the
    cycling technology icons and skill colours, and when a skill's percentage
    bar is drawn. */
module Skills {

  import opened Js

  /** One entry of `skillsData.skills`; `percentage` is a number, possibly missing. */
  datatype Skill = Skill(name: Option<string>, percentage: Option<int>)

  datatype Technology = Technology(name: Option<string>)

  datatype Milestone = Milestone(year: Option<string>, title: Option<string>, description: Option<string>)

  datatype SkillsData = SkillsData(
    isRequired: Option<bool>,
    skills: Option<seq<Skill>>,
    technologies: Option<seq<Technology>>,
    timeline: Option<seq<Milestone>>)

  /** The early return: the section renders only with data, `isRequired` not
      `false`, and at least one skill. */
  predicate Renders(d: Option<SkillsData>) {
    d.Some? && d.value.isRequired != Some(false)
    && d.value.skills.Some? && |d.value.skills.value| > 0
  }

  /** `xs || []` on an optional list. */
  function OrNone<T>(xs: Option<seq<T>>): (r: seq<T>)
    ensures xs.None? ==> r == []
    ensures xs.Some? ==> r == xs.value
  {
    if xs.Some? then xs.value else []
  }

  /** `skillsData.technologies || []`. */
  function Technologies(d: SkillsData): seq<Technology> {
    OrNone(d.technologies)
  }

  /** `skillsData.timeline || []`. */
  function Timeline(d: SkillsData): seq<Milestone> {
    OrNone(d.timeline)
  }

  /** The technologies panel and the timeline are drawn only for non-empty
      lists, so a missing list and an empty one look the same. */
  lemma MissingListsDrawNothing(d: SkillsData)
    ensures |Technologies(d)| > 0 <==> d.technologies.Some? && |d.technologies.value| > 0
    ensures |Timeline(d)| > 0 <==> d.timeline.Some? && |d.timeline.value| > 0
  {
  }

  // --------------------------------------------------------- technologies

  /** The eight general technology icons, in table order. */
  const TechIcons: seq<string> := [
    "\U{2699}\U{FE0F}", "\U{1F527}", "\U{1F4BB}", "\U{1F5A5}\U{FE0F}",
    "\U{1F4F1}", "\U{1F310}", "\U{26A1}", "\U{1F680}"
  ]

  /** `getTechnologyIcon(index)`: the table entry at `index % 8`. */
  function TechnologyIcon(index: nat): (icon: string)
    ensures icon in TechIcons
  {
    TechIcons[index % |TechIcons|]
  }

  /** The icons repeat every eight technologies. */
  lemma TechnologyIconPeriodic(index: nat)
    ensures TechnologyIcon(index + 8) == TechnologyIcon(index)
  {
    assert |TechIcons| == 8;
    assert (index + 8) % 8 == index % 8;
  }

  /** The eight icons are all different. */
  lemma TechIconsDistinct()
    ensures forall i, j :: 0 <= i < j < |TechIcons| ==> TechIcons[i] != TechIcons[j]
  {
  }

  /** Fewer than nine technologies never share an icon; the ninth takes the first one's. */
  lemma TechnologyIconsDistinctWithinEight(i: nat, j: nat)
    requires i < j < i + 8
    ensures TechnologyIcon(i) != TechnologyIcon(j)
  {
    TechIconsDistinct();
    var a, b := i % 8, j % 8;
    if a < b {
      assert TechIcons[a] != TechIcons[b];
    } else {
      assert a != b by {
        ModDistinctWithinPeriod(i, j);
      }
      assert TechIcons[b] != TechIcons[a];
    }
  }

  lemma ModDistinctWithinPeriod(i: nat, j: nat)
    requires i < j < i + 8
    ensures i % 8 != j % 8
  {
  }

  // --------------------------------------------------------------- skills

  /** The six gradient schemes, cycled through by skill position. */
  const ColorSchemes: seq<string> := [
    "from-violet-500 to-purple-600",
    "from-blue-500 to-cyan-600",
    "from-emerald-500 to-teal-600",
    "from-orange-500 to-red-600",
    "from-pink-500 to-rose-600",
    "from-amber-500 to-yellow-600"
  ]

  /** `index % predefinedColors.length`. */
  function ColorIndex(index: nat): (c: nat)
    ensures c < |ColorSchemes|
    ensures c == index % 6
  {
    index % |ColorSchemes|
  }

  /** Skills six places apart share a scheme, neighbours never do. */
  lemma ColorCycle(index: nat)
    ensures ColorIndex(index + 6) == ColorIndex(index)
    ensures ColorIndex(index + 1) != ColorIndex(index)
  {
  }

  /** JavaScript truthiness of an optional number: missing and 0 are falsy. */
  predicate NumberTruthy(p: Option<int>) {
    p.Some? && p.value != 0
  }

  /** What a JSX slot shows: nothing, a text node, or a bar of the given width in per cent. */
  datatype Slot = Nothing | Text(text: string) | Bar(width: int)

  /** `{skill.percentage && <bar/>}` as written: React prints a falsy number, so
      a percentage of 0 shows the text "0" instead of nothing. */
  function PercentageSlotAsWritten(p: Option<int>): (s: Slot)
    ensures s.Bar? <==> NumberTruthy(p)
    ensures s.Text? <==> p == Some(0)
  {
    if p.None? then Nothing
    else if p.value == 0 then Text("0")
    else Bar(p.value)
  }

  /** The percentage bar as intended: drawn exactly for a truthy percentage,
      at that width, and nothing otherwise. */
  function PercentageSlot(p: Option<int>): (s: Slot)
    ensures s.Bar? <==> NumberTruthy(p)
    ensures s.Bar? ==> s.width == p.value
    ensures !s.Text?
  {
    if NumberTruthy(p) then Bar(p.value) else Nothing
  }

  /** The two differ on exactly one input: a percentage of 0. */
  lemma StrayZero(p: Option<int>)
    ensures PercentageSlotAsWritten(p) != PercentageSlot(p) <==> p == Some(0)
    ensures PercentageSlotAsWritten(Some(0)) == Text("0")
  {
  }

  /** The row above a bar, with the skill's name and its percentage, shows when
      either is truthy. */
  predicate ShowsHeader(s: Skill) {
    Truthy(s.name) || NumberTruthy(s.percentage)
  }

  /** A drawn bar always comes with its header. */
  lemma BarImpliesHeader(s: Skill)
    ensures PercentageSlot(s.percentage).Bar? ==> ShowsHeader(s)
  {
  }
}
