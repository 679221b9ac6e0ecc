/** The page: which sections the configuration lets it mount, and the view
    state that moves from the loading screen through the hero to the content. */
module Page {

  import opened Js
  import Story
  import Projects
  import Skills
  import Contact

  // ---------------------------------------------------------------- flags

  /** `heroData`, as far as the page and the hero read it. */
  datatype HeroData = HeroData(isRequired: Option<bool>)

  /** The five configuration modules, each possibly missing. */
  datatype Config = Config(
    hero: Option<HeroData>,
    story: Option<Story.StoryData>,
    projects: Option<Projects.ProjectsData>,
    skills: Option<Skills.SkillsData>,
    contact: Option<Contact.ContactData>)

  /** `data && data.isRequired === true`, for each module. */
  predicate ShouldRenderHero(c: Config) {
    c.hero.Some? && c.hero.value.isRequired == Some(true)
  }

  predicate ShouldRenderStory(c: Config) {
    c.story.Some? && c.story.value.isRequired == Some(true)
  }

  predicate ShouldRenderProjects(c: Config) {
    c.projects.Some? && c.projects.value.isRequired == Some(true)
  }

  predicate ShouldRenderSkills(c: Config) {
    c.skills.Some? && c.skills.value.isRequired == Some(true)
  }

  predicate ShouldRenderContact(c: Config) {
    c.contact.Some? && c.contact.value.isRequired == Some(true)
  }

  /** The hero's own early return: nothing without data or with `isRequired === false`. */
  predicate HeroRenders(h: Option<HeroData>) {
    h.Some? && h.value.isRequired != Some(false)
  }

  /** The page's flag is the stricter test: whatever the page mounts passes the
      component's own presence-and-flag test (the story, projects and skills
      sections may still return nothing when their list is empty). */
  lemma FlagsImplyComponentGates(c: Config)
    ensures ShouldRenderHero(c) ==> HeroRenders(c.hero)
    ensures ShouldRenderContact(c) ==> Contact.Renders(c.contact)
    ensures ShouldRenderStory(c) ==>
      (Story.Renders(c.story) <==> c.story.value.chapters.Some? && |c.story.value.chapters.value| > 0)
    ensures ShouldRenderProjects(c) ==>
      (Projects.Renders(c.projects) <==> c.projects.value.projects.Some? && |c.projects.value.projects.value| > 0)
    ensures ShouldRenderSkills(c) ==>
      (Skills.Renders(c.skills) <==> c.skills.value.skills.Some? && |c.skills.value.skills.value| > 0)
  {
  }

  /** The converse fails: a module without an `isRequired` field passes the
      component's test but the page never mounts it. */
  lemma MissingFlagIsNotMounted(d: Contact.ContactData)
    requires d.isRequired.None?
    ensures Contact.Renders(Some(d))
    ensures !ShouldRenderContact(Config(None, None, None, None, Some(d)))
  {
  }

  /** The content's sections, in the order they are mounted. */
  datatype Section = StorySection | ProjectsSection | SkillsSection | ContactSection

  const SectionOrder: seq<Section> := [StorySection, ProjectsSection, SkillsSection, ContactSection]

  function SectionRank(s: Section): int {
    match s
    case StorySection => 0
    case ProjectsSection => 1
    case SkillsSection => 2
    case ContactSection => 3
  }

  function Flag(c: Config, s: Section): bool {
    match s
    case StorySection => ShouldRenderStory(c)
    case ProjectsSection => ShouldRenderProjects(c)
    case SkillsSection => ShouldRenderSkills(c)
    case ContactSection => ShouldRenderContact(c)
  }

  /** The sections inside the content: each exactly when its flag holds, in
      the order story, projects, skills, contact. */
  function MountedSections(c: Config): (r: seq<Section>)
    ensures forall s :: s in r <==> Flag(c, s)
    ensures forall i, j :: 0 <= i < j < |r| ==> SectionRank(r[i]) < SectionRank(r[j])
  {
    var f := (s: Section) => Flag(c, s);
    FilterKeepsOrder(SectionOrder, f, SectionRank);
    assert forall s :: s in SectionOrder by {
      forall s ensures s in SectionOrder {
        assert SectionOrder[SectionRank(s)] == s;
      }
    }
    Filter(SectionOrder, f)
  }

  // ----------------------------------------------------------- view state

  /** The loading screen's timeout, in milliseconds. */
  const LoadingDelayMs := 2500

  /** The page's state: its two flags, plus the pending timer, the time since
      mounting and whether the page is still mounted. */
  datatype ViewState = ViewState(
    isLoading: bool,
    hasEntered: bool,
    timerPending: bool,
    elapsed: nat,
    mounted: bool)

  /** Just mounted: loading, not entered, and the timer armed. */
  const Initial := ViewState(true, false, true, 0, true)

  /** What can happen to the page: time passes, the hero's call to action is
      clicked, or the page is torn down. */
  datatype Event = Elapse(ms: nat) | HeroClick | Teardown

  predicate LoadingVisible(s: ViewState) {
    s.isLoading
  }

  predicate HeroVisible(s: ViewState, heroFlag: bool) {
    !s.isLoading && !s.hasEntered && heroFlag
  }

  predicate ContentVisible(s: ViewState) {
    !s.isLoading && s.hasEntered
  }

  predicate ProgressBarVisible(s: ViewState) {
    s.hasEntered
  }

  /** One event. The timer fires once, when 2500 ms have passed since mounting
      and it was not cleared; the enter callback exists only inside the hero,
      so a click sets `hasEntered` only while the hero is on screen; teardown
      clears the timer. */
  function Step(s: ViewState, e: Event, heroFlag: bool): ViewState {
    match e
    case Elapse(ms) =>
      var t := s.elapsed + ms;
      if s.timerPending && t >= LoadingDelayMs then s.(elapsed := t, isLoading := false, timerPending := false)
      else s.(elapsed := t)
    case HeroClick =>
      if s.mounted && HeroVisible(s, heroFlag) then s.(hasEntered := true) else s
    case Teardown =>
      s.(mounted := false, timerPending := false)
  }

  /** The state after a sequence of events. */
  function Run(s: ViewState, es: seq<Event>, heroFlag: bool): ViewState {
    if es == [] then s else Step(Run(s, es[..|es| - 1], heroFlag), es[|es| - 1], heroFlag)
  }

  /** What every state reached from `Initial` satisfies. */
  ghost predicate Inv(s: ViewState) {
    (s.timerPending ==> s.mounted && s.isLoading && s.elapsed < LoadingDelayMs)
    && (s.mounted && s.isLoading ==> s.timerPending)
    && (s.mounted && !s.isLoading ==> s.elapsed >= LoadingDelayMs)
    && (s.hasEntered ==> !s.isLoading)
  }

  lemma InitialInv()
    ensures Inv(Initial)
  {
  }

  lemma StepKeepsInv(s: ViewState, e: Event, heroFlag: bool)
    requires Inv(s)
    ensures Inv(Step(s, e, heroFlag))
  {
  }

  lemma {:induction false} RunKeepsInv(s: ViewState, es: seq<Event>, heroFlag: bool)
    requires Inv(s)
    ensures Inv(Run(s, es, heroFlag))
  {
    if es != [] {
      RunKeepsInv(s, es[..|es| - 1], heroFlag);
      StepKeepsInv(Run(s, es[..|es| - 1], heroFlag), es[|es| - 1], heroFlag);
    }
  }

  /** While mounted, the loading screen shows exactly for the first 2500 ms. */
  lemma LoadingLastsTheDelay(es: seq<Event>, heroFlag: bool)
    ensures var s := Run(Initial, es, heroFlag);
      s.mounted ==> (LoadingVisible(s) <==> s.elapsed < LoadingDelayMs)
  {
    RunKeepsInv(Initial, es, heroFlag);
  }

  /** The three views never show together, and the progress bar shows exactly
      with the content. */
  lemma ViewsExclusive(es: seq<Event>, heroFlag: bool)
    ensures var s := Run(Initial, es, heroFlag);
      !(LoadingVisible(s) && HeroVisible(s, heroFlag))
      && !(LoadingVisible(s) && ContentVisible(s))
      && !(HeroVisible(s, heroFlag) && ContentVisible(s))
      && (ProgressBarVisible(s) <==> ContentVisible(s))
  {
    RunKeepsInv(Initial, es, heroFlag);
  }

  /** The flags only move one way: loading, once over, never comes back;
      entering is never undone; a cleared or fired timer never fires again, so
      the loading flag is frozen from then on. */
  lemma {:induction false} RunIsMonotone(s: ViewState, es: seq<Event>, heroFlag: bool)
    ensures !s.isLoading ==> !Run(s, es, heroFlag).isLoading
    ensures s.hasEntered ==> Run(s, es, heroFlag).hasEntered
    ensures !s.timerPending ==> !Run(s, es, heroFlag).timerPending && Run(s, es, heroFlag).isLoading == s.isLoading
    ensures !s.mounted ==> !Run(s, es, heroFlag).mounted
  {
    if es != [] {
      RunIsMonotone(s, es[..|es| - 1], heroFlag);
    }
  }

  /** Once the page is torn down, the timer can no longer end the loading screen. */
  lemma NoTickAfterTeardown(s: ViewState, es: seq<Event>, heroFlag: bool)
    ensures Run(Step(s, Teardown, heroFlag), es, heroFlag).isLoading == s.isLoading
    ensures !Run(Step(s, Teardown, heroFlag), es, heroFlag).mounted
  {
    RunIsMonotone(Step(s, Teardown, heroFlag), es, heroFlag);
  }

  /** With the hero switched off nothing can call the enter callback: after
      loading the page stays on an empty screen for good. */
  lemma {:induction false} NoHeroNoContent(es: seq<Event>)
    ensures !Run(Initial, es, false).hasEntered
    ensures !ContentVisible(Run(Initial, es, false)) && !HeroVisible(Run(Initial, es, false), false)
  {
    if es != [] {
      NoHeroNoContent(es[..|es| - 1]);
    }
  }

  /** Whenever the content is entered, some earlier event was a click on a
      visible hero. */
  lemma {:induction false} EnteredOnlyThroughHero(s: ViewState, es: seq<Event>, heroFlag: bool)
    requires !s.hasEntered && Run(s, es, heroFlag).hasEntered
    ensures exists k :: 0 <= k < |es| && es[k] == HeroClick && HeroVisible(Run(s, es[..k], heroFlag), heroFlag)
  {
    var p := es[..|es| - 1];
    var t := Run(s, p, heroFlag);
    if t.hasEntered {
      EnteredOnlyThroughHero(s, p, heroFlag);
      var k :| 0 <= k < |p| && p[k] == HeroClick && HeroVisible(Run(s, p[..k], heroFlag), heroFlag);
      assert es[..k] == p[..k];
      assert es[k] == HeroClick;
    } else {
      assert es[..|p|] == p;
      assert HeroVisible(Run(s, es[..|p|], heroFlag), heroFlag);
    }
  }

  /** The page as a component: its two state flags, the timer and the clock. */
  class Portfolio {
    const heroFlag: bool
    var isLoading: bool
    var hasEntered: bool
    var timerPending: bool
    var elapsed: nat
    var mounted: bool

    function State(): ViewState
      reads this
    {
      ViewState(isLoading, hasEntered, timerPending, elapsed, mounted)
    }

    ghost predicate Valid()
      reads this
    {
      Inv(State())
    }

    /** Mounting: loading, not entered, the effect arms the 2500 ms timer. */
    constructor (config: Config)
      ensures Valid()
      ensures heroFlag == ShouldRenderHero(config) && State() == Initial
    {
      heroFlag := ShouldRenderHero(config);
      isLoading := true;
      hasEntered := false;
      timerPending := true;
      elapsed := 0;
      mounted := true;
    }

    /** Time passes; the timer callback sets `isLoading` to false when it fires. */
    method AdvanceClock(ms: nat)
      requires Valid()
      modifies this
      ensures Valid()
      ensures State() == Step(old(State()), Elapse(ms), heroFlag)
    {
      elapsed := elapsed + ms;
      if timerPending && elapsed >= LoadingDelayMs {
        timerPending := false;
        isLoading := false;
      }
    }

    /** `handleEnterPortfolio`. */
    method HandleEnterPortfolio()
      modifies this
      ensures hasEntered
      ensures isLoading == old(isLoading) && timerPending == old(timerPending)
      ensures elapsed == old(elapsed) && mounted == old(mounted)
    {
      hasEntered := true;
    }

    /** A click on the hero's call to action, the only caller of the callback. */
    method ClickHero()
      requires Valid()
      modifies this
      ensures Valid()
      ensures State() == Step(old(State()), HeroClick, heroFlag)
    {
      if mounted && !isLoading && !hasEntered && heroFlag {
        HandleEnterPortfolio();
      }
    }

    /** The effect's cleanup: `clearTimeout`. */
    method Unmount()
      requires Valid()
      modifies this
      ensures Valid()
      ensures State() == Step(old(State()), Teardown, heroFlag)
    {
      mounted := false;
      timerPending := false;
    }
  }
}
