/** The project showcase: the gate, the two keyword classifiers that pick a
    placeholder's icon and background pattern from a project's category, the
    "year • category" caption and the colour cycling. */
module Projects {

  import opened Js

  /** One entry of `projectsData.projects`; every text field may be missing. */
  datatype Project = Project(
    title: Option<string>,
    year: Option<string>,
    category: Option<string>,
    image: Option<string>)

  datatype ProjectsData = ProjectsData(isRequired: Option<bool>, projects: Option<seq<Project>>)

  /** The early return: the section renders only with data, `isRequired` not
      `false`, and at least one project. */
  predicate Renders(d: Option<ProjectsData>) {
    d.Some? && d.value.isRequired != Some(false)
    && d.value.projects.Some? && |d.value.projects.value| > 0
  }

  // ------------------------------------------------------------ classifiers

  /** The seven placeholder icons. */
  datatype Icon = Shopping | Palette | BarChart | Masks | Laptop | Phone | Rocket

  function IconGlyph(i: Icon): string {
    match i
    case Shopping => "\U{1F6CD}\U{FE0F}"
    case Palette => "\U{1F3A8}"
    case BarChart => "\U{1F4CA}"
    case Masks => "\U{1F3AD}"
    case Laptop => "\U{1F4BB}"
    case Phone => "\U{1F4F1}"
    case Rocket => "\U{1F680}"
  }

  /** The four placeholder backgrounds. */
  datatype Pattern = Commerce | Neural | Chart | Geometric

  /** Some keyword of `keywords` occurs in `cat`. */
  predicate MatchesAny(cat: string, keywords: seq<string>) {
    exists k :: 0 <= k < |keywords| && Includes(cat, keywords[k])
  }

  /** The icon rules, in priority order: a bucket's keywords and its icon. */
  const IconRules: seq<(seq<string>, Icon)> := [
    (["e-commerce", "platform"], Shopping),
    (["ai", "art"], Palette),
    (["data", "dashboard", "visualization"], BarChart),
    (["interactive", "media"], Masks),
    (["web", "design"], Laptop),
    (["mobile", "app"], Phone)
  ]

  /** The pattern rules, in priority order; the chart bucket has no "visualization". */
  const PatternRules: seq<(seq<string>, Pattern)> := [
    (["e-commerce", "platform"], Commerce),
    (["ai", "art"], Neural),
    (["data", "dashboard"], Chart)
  ]

  /** `getCategoryIcon`: the first bucket one of whose keywords occurs in the
      ASCII-lower-cased category wins; with none, the rocket. */
  function CategoryIcon(category: string): Icon {
    var cat := ToLower(category);
    if Includes(cat, "e-commerce") || Includes(cat, "platform") then Shopping
    else if Includes(cat, "ai") || Includes(cat, "art") then Palette
    else if Includes(cat, "data") || Includes(cat, "dashboard") || Includes(cat, "visualization") then BarChart
    else if Includes(cat, "interactive") || Includes(cat, "media") then Masks
    else if Includes(cat, "web") || Includes(cat, "design") then Laptop
    else if Includes(cat, "mobile") || Includes(cat, "app") then Phone
    else Rocket
  }

  /** The background `getPatternByCategory` draws, as the bucket it picks. */
  function CategoryPattern(category: string): Pattern {
    var cat := ToLower(category);
    if Includes(cat, "e-commerce") || Includes(cat, "platform") then Commerce
    else if Includes(cat, "ai") || Includes(cat, "art") then Neural
    else if Includes(cat, "data") || Includes(cat, "dashboard") then Chart
    else Geometric
  }

  /** Reference reading of a priority table: the outcome of the first rule,
      from position `i` on, whose keywords match, or `default` when none does. */
  function FirstMatchFrom<T>(cat: string, rules: seq<(seq<string>, T)>, i: nat, default: T): T
    decreases |rules| - i
  {
    if i >= |rules| then default
    else if MatchesAny(cat, rules[i].0) then rules[i].1
    else FirstMatchFrom(cat, rules, i + 1, default)
  }

  lemma MatchesTwo(cat: string, a: string, b: string)
    ensures MatchesAny(cat, [a, b]) <==> Includes(cat, a) || Includes(cat, b)
  {
    if Includes(cat, a) {
      assert [a, b][0] == a;
    }
    if Includes(cat, b) {
      assert [a, b][1] == b;
    }
  }

  lemma MatchesThree(cat: string, a: string, b: string, c: string)
    ensures MatchesAny(cat, [a, b, c]) <==> Includes(cat, a) || Includes(cat, b) || Includes(cat, c)
  {
    if Includes(cat, a) {
      assert [a, b, c][0] == a;
    }
    if Includes(cat, b) {
      assert [a, b, c][1] == b;
    }
    if Includes(cat, c) {
      assert [a, b, c][2] == c;
    }
  }

  /** The icon if-chain is the icon table read with first-match priority. */
  lemma CategoryIconIsFirstMatch(category: string)
    ensures CategoryIcon(category) == FirstMatchFrom(ToLower(category), IconRules, 0, Rocket)
  {
    var cat := ToLower(category);
    var r := IconRules;
    MatchesTwo(cat, "mobile", "app");
    assert FirstMatchFrom(cat, r, 5, Rocket)
      == if Includes(cat, "mobile") || Includes(cat, "app") then Phone else Rocket;
    MatchesTwo(cat, "web", "design");
    assert FirstMatchFrom(cat, r, 4, Rocket)
      == if Includes(cat, "web") || Includes(cat, "design") then Laptop else FirstMatchFrom(cat, r, 5, Rocket);
    MatchesTwo(cat, "interactive", "media");
    assert FirstMatchFrom(cat, r, 3, Rocket)
      == if Includes(cat, "interactive") || Includes(cat, "media") then Masks else FirstMatchFrom(cat, r, 4, Rocket);
    MatchesThree(cat, "data", "dashboard", "visualization");
    assert FirstMatchFrom(cat, r, 2, Rocket)
      == if Includes(cat, "data") || Includes(cat, "dashboard") || Includes(cat, "visualization") then BarChart
         else FirstMatchFrom(cat, r, 3, Rocket);
    MatchesTwo(cat, "ai", "art");
    assert FirstMatchFrom(cat, r, 1, Rocket)
      == if Includes(cat, "ai") || Includes(cat, "art") then Palette else FirstMatchFrom(cat, r, 2, Rocket);
    MatchesTwo(cat, "e-commerce", "platform");
  }

  /** The pattern if-chain is the pattern table read with first-match priority. */
  lemma CategoryPatternIsFirstMatch(category: string)
    ensures CategoryPattern(category) == FirstMatchFrom(ToLower(category), PatternRules, 0, Geometric)
  {
    var cat := ToLower(category);
    var r := PatternRules;
    MatchesTwo(cat, "data", "dashboard");
    assert FirstMatchFrom(cat, r, 2, Geometric)
      == if Includes(cat, "data") || Includes(cat, "dashboard") then Chart else Geometric;
    MatchesTwo(cat, "ai", "art");
    assert FirstMatchFrom(cat, r, 1, Geometric)
      == if Includes(cat, "ai") || Includes(cat, "art") then Neural else FirstMatchFrom(cat, r, 2, Geometric);
    MatchesTwo(cat, "e-commerce", "platform");
  }

  /** The rocket appears exactly when no keyword of any bucket occurs. */
  lemma RocketIffNoKeyword(category: string)
    ensures CategoryIcon(category) == Rocket
      <==> forall k :: 0 <= k < |IconRules| ==> !MatchesAny(ToLower(category), IconRules[k].0)
  {
    var cat := ToLower(category);
    MatchesTwo(cat, "e-commerce", "platform");
    MatchesTwo(cat, "ai", "art");
    MatchesThree(cat, "data", "dashboard", "visualization");
    MatchesTwo(cat, "interactive", "media");
    MatchesTwo(cat, "web", "design");
    MatchesTwo(cat, "mobile", "app");
    assert IconRules[0].0 == ["e-commerce", "platform"];
    assert IconRules[1].0 == ["ai", "art"];
    assert IconRules[2].0 == ["data", "dashboard", "visualization"];
    assert IconRules[3].0 == ["interactive", "media"];
    assert IconRules[4].0 == ["web", "design"];
    assert IconRules[5].0 == ["mobile", "app"];
  }

  /** Classification ignores ASCII case. */
  lemma ClassifiersIgnoreCase(category: string)
    ensures CategoryIcon(ToLower(category)) == CategoryIcon(category)
    ensures CategoryPattern(ToLower(category)) == CategoryPattern(category)
  {
    ToLowerIdempotent(category);
  }

  /** Where the two classifiers agree and where they part: the first two
      buckets coincide, a chart background always comes with the chart icon,
      and the chart icon comes with the plain background exactly when only
      "visualization" put it there. */
  lemma IconAndPatternAgree(category: string)
    ensures CategoryIcon(category) == Shopping <==> CategoryPattern(category) == Commerce
    ensures CategoryIcon(category) == Palette <==> CategoryPattern(category) == Neural
    ensures CategoryPattern(category) == Chart ==> CategoryIcon(category) == BarChart
    ensures CategoryIcon(category) == BarChart && CategoryPattern(category) == Geometric
      <==> (CategoryIcon(category) == BarChart && !Includes(ToLower(category), "data")
            && !Includes(ToLower(category), "dashboard"))
    ensures CategoryIcon(category) in {Masks, Laptop, Phone, Rocket} ==> CategoryPattern(category) == Geometric
  {
  }

  /** A missing category is read as "", which matches no keyword: the rocket
      and the plain background. */
  lemma EmptyCategoryDefaults()
    ensures CategoryIcon("") == Rocket && CategoryPattern("") == Geometric
  {
    NothingInEmpty("e-commerce");
    NothingInEmpty("platform");
    NothingInEmpty("ai");
    NothingInEmpty("art");
    NothingInEmpty("data");
    NothingInEmpty("dashboard");
    NothingInEmpty("visualization");
    NothingInEmpty("interactive");
    NothingInEmpty("media");
    NothingInEmpty("web");
    NothingInEmpty("design");
    NothingInEmpty("mobile");
    NothingInEmpty("app");
  }

  /** A keyword holding a character the text lacks does not occur in it. */
  lemma AbsentByCharacter(s: string, sub: string, c: char)
    requires c in sub && c !in s
    ensures !Includes(s, sub)
  {
  }

  /** Containment inside a word: the "ai" of "email" makes "email" an art category. */
  lemma SubstringExample()
    ensures CategoryIcon("email") == Palette
  {
    assert OccursAt("email", "ai", 2);
    AbsentByCharacter("email", "e-commerce", '-');
    AbsentByCharacter("email", "platform", 'p');
    ToLowerOfLower("email");
  }

  // -------------------------------------------------------------- captions

  /** The meta line above a title: `year && category ? "year • category" : year
      || category`, hidden when both are falsy. */
  function MetaLabel(year: Option<string>, category: Option<string>): (r: Option<string>)
    ensures r.None? <==> !Truthy(year) && !Truthy(category)
    ensures r.Some? && !Truthy(category) ==> r.value == year.value
    ensures r.Some? && !Truthy(year) ==> r.value == category.value
  {
    if Truthy(year) && Truthy(category) then Some(year.value + " \U{2022} " + category.value)
    else if Truthy(year) then Some(year.value)
    else if Truthy(category) then Some(category.value)
    else None
  }

  /** With both parts present, the label is the year, a bullet between two
      spaces, and the category; it can be read back: the year runs up to the
      first bullet, the category starts two characters after it. */
  lemma MetaLabelSplits(year: string, category: string)
    requires year != "" && category != "" && '\U{2022}' !in year
    ensures var l := MetaLabel(Some(year), Some(category)).value;
      |l| == |year| + 3 + |category|
      && l[..|year|] == year && l[|year|..|year| + 3] == " \U{2022} " && l[|year| + 3..] == category
      && '\U{2022}' in l && FirstIndex(l, '\U{2022}') == |year| + 1
  {
    var l := MetaLabel(Some(year), Some(category)).value;
    assert l == (year + " ") + ['\U{2022}'] + (" " + category);
    assert '\U{2022}' !in year + " ";
    FirstIndexAfter(year + " ", '\U{2022}', " " + category);
  }

  /** The caption under a placeholder's title: the category, else "Creative Project". */
  function PlaceholderCaption(p: Project): (c: string)
    ensures c != ""
    ensures Truthy(p.category) ==> c == p.category.value
    ensures !Truthy(p.category) ==> c == "Creative Project"
  {
    OrElse(p.category, "Creative Project")
  }

  /** The four gradient schemes, cycled through by project position. */
  const ColorSchemes: seq<string> := [
    "from-violet-500 to-purple-600",
    "from-cyan-500 to-blue-600",
    "from-emerald-500 to-teal-600",
    "from-orange-500 to-red-600"
  ]

  /** `index % predefinedColors.length`. */
  function ColorIndex(index: nat): (c: nat)
    ensures c < |ColorSchemes|
    ensures c == index % 4
  {
    index % |ColorSchemes|
  }

  /** Projects four places apart share a scheme, neighbours never do. */
  lemma ColorCycle(index: nat)
    ensures ColorIndex(index + 4) == ColorIndex(index)
    ensures ColorIndex(index + 1) != ColorIndex(index)
  {
  }

  /** What a project's visual panel shows. */
  datatype Visual =
    | Picture(src: string, alt: string, overlay: string)
    | Placeholder(gradient: string, pattern: Pattern, icon: Icon, title: string, caption: string)

  /** The image when the project has a non-blank one, the category placeholder otherwise. */
  function ProjectVisual(p: Project, index: nat): (v: Visual)
    ensures v.Picture? <==> Filled(p.image)
    ensures v.Picture? ==> v.src == p.image.value && v.overlay == ColorSchemes[index % 4]
    ensures v.Placeholder? ==>
      v.gradient == ColorSchemes[index % 4]
      && v.icon == CategoryIcon(OrElse(p.category, ""))
      && v.pattern == CategoryPattern(OrElse(p.category, ""))
      && v.caption == PlaceholderCaption(p)
    ensures Truthy(p.title) ==> (v.Picture? ==> v.alt == p.title.value) && (v.Placeholder? ==> v.title == p.title.value)
    ensures !Truthy(p.title) ==> (v.Picture? ==> v.alt == "Project") && (v.Placeholder? ==> v.title == "Project")
  {
    var c := ColorIndex(index);
    if Filled(p.image) then Picture(p.image.value, OrElse(p.title, "Project"), ColorSchemes[c])
    else
      var category := OrElse(p.category, "");
      Placeholder(ColorSchemes[c], CategoryPattern(category), CategoryIcon(category),
        OrElse(p.title, "Project"), PlaceholderCaption(p))
  }

  /** A project without a category gets the rocket, the plain background and
      the caption "Creative Project". */
  lemma UncategorisedPlaceholder(p: Project, index: nat)
    requires !Truthy(p.category) && !Filled(p.image)
    ensures ProjectVisual(p, index).icon == Rocket
    ensures ProjectVisual(p, index).pattern == Geometric
    ensures ProjectVisual(p, index).caption == "Creative Project"
  {
    EmptyCategoryDefaults();
  }
}
