/** The projects section: a fixed project list shown through a category
    filter chosen with a row of buttons, with the cards revealed by the
    section's latch and staggered by their position in the filtered list. */
module Projects {
  import opened Reveal

  /** A project as the filter and the cards use it. */
  datatype Project = Project(title: string, category: string)

  const AllProjects: seq<Project> := [
    Project("AI-Powered API Monitoring Platform ", "Backend"),
    Project("Enterprise-Level Job Scheduler with AWS Step Functions", "Full Stack"),
    Project("Medical Claims Management System", "Backend")
  ]

  /** The filter that shows every project. */
  const ShowAll: string := "All"

  /** The filter buttons, in order. */
  const Filters: seq<string> := [ShowAll, "Full Stack", "Backend"]

  /** `s` can be obtained from `t` by deleting elements. */
  predicate IsSubsequence<T(==)>(s: seq<T>, t: seq<T>)
    decreases |t|
  {
    s == [] ||
    (t != [] && ((s[0] == t[0] && IsSubsequence(s[1..], t[1..])) || IsSubsequence(s, t[1..])))
  }

  /** `projects.filter(project => project.category === category)`: the
      projects of that category, each as often as in the list, in list
      order, and nothing else. */
  function OfCategory(projects: seq<Project>, category: string): (r: seq<Project>)
    ensures |r| <= |projects|
    ensures IsSubsequence(r, projects)
    ensures forall p :: p in r <==> p in projects && p.category == category
    ensures forall p :: multiset(r)[p] == if p.category == category then multiset(projects)[p] else 0
    decreases |projects|
  {
    if projects == [] then []
    else
      var rest := OfCategory(projects[1..], category);
      assert projects == [projects[0]] + projects[1..];
      if projects[0].category == category then [projects[0]] + rest else rest
  }

  /** `filteredProjects`. */
  function Shown(activeFilter: string, projects: seq<Project>): seq<Project>
  {
    if activeFilter == ShowAll then projects else OfCategory(projects, activeFilter)
  }

  /** "All" shows the whole list in order; any other filter shows exactly
      that category's projects, each as often as in the list, in order. */
  lemma ShownIsFilter(activeFilter: string, projects: seq<Project>)
    ensures activeFilter == ShowAll ==> Shown(activeFilter, projects) == projects
    ensures activeFilter != ShowAll ==>
      IsSubsequence(Shown(activeFilter, projects), projects) &&
      |Shown(activeFilter, projects)| <= |projects| &&
      (forall p :: p in Shown(activeFilter, projects) <==> p in projects && p.category == activeFilter) &&
      forall p :: multiset(Shown(activeFilter, projects))[p] ==
        if p.category == activeFilter then multiset(projects)[p] else 0
  {
  }

  /** With the page's data: "Backend" shows projects 1 and 3, "Full Stack"
      shows project 2. */
  lemma ShownOnThePage()
    ensures Shown("Backend", AllProjects) == [AllProjects[0], AllProjects[2]]
    ensures Shown("Full Stack", AllProjects) == [AllProjects[1]]
    ensures Shown(ShowAll, AllProjects) == AllProjects
  {
    assert AllProjects[1..][1..][1..] == [];
    assert OfCategory(AllProjects[1..][1..], "Backend") == [AllProjects[2]];
    assert OfCategory(AllProjects[1..][1..], "Full Stack") == [];
  }

  /** A filter button's `variant`. */
  datatype Variant = Default | Outline

  function VariantFor(activeFilter: string, filter: string): Variant
  {
    if activeFilter == filter then Default else Outline
  }

  /** The variants of the filter buttons, in order. */
  function Variants(activeFilter: string): seq<Variant>
  {
    seq(|Filters|, i requires 0 <= i < |Filters| => VariantFor(activeFilter, Filters[i]))
  }

  /** While the active filter is one of the buttons, exactly that button is
      drawn as "default" and every other as "outline". */
  lemma OneDefaultButton(activeFilter: string)
    requires activeFilter in Filters
    ensures exists i :: 0 <= i < |Filters| && Filters[i] == activeFilter && Variants(activeFilter)[i] == Default
    ensures forall i :: 0 <= i < |Filters| ==>
      (Variants(activeFilter)[i] == Default <==> Filters[i] == activeFilter)
    ensures forall i, j :: 0 <= i < j < |Filters| ==>
      !(Variants(activeFilter)[i] == Default && Variants(activeFilter)[j] == Default)
  {
    var i :| 0 <= i < |Filters| && Filters[i] == activeFilter;
    assert Variants(activeFilter)[i] == Default;
  }

  /** The keys of the cards: project titles. */
  function Titles(projects: seq<Project>): seq<string>
  {
    seq(|projects|, i requires 0 <= i < |projects| => projects[i].title)
  }

  /** The section's other revealed blocks: heading, intro, the filter row
      and the call to action. */
  const ProjectsBlocks: seq<Block> := [
    Block("heading", "animate-fade-in-up", 0),
    Block("intro", "animate-fade-in-up", 2),
    Block("filters", "animate-scale-in", 4),
    Block("call-to-action", "animate-fade-in-up", 10)
  ]

  /** The mounted projects section: the `activeFilter` cell and its reveal
      latch (`threshold: 0.2`). */
  class ProjectsSection {
    var activeFilter: string
    const latch: RevealLatch

    ghost predicate Valid()
      reads this
    {
      activeFilter in Filters
    }

    constructor ()
      ensures Valid() && activeFilter == ShowAll
      ensures fresh(latch) && latch.thresholdPercent == 20
      ensures !latch.isVisible && !latch.observing
    {
      activeFilter := ShowAll;
      latch := new RevealLatch(20);
    }

    /** A filter button's `onClick`. */
    method ClickFilter(filter: string)
      requires filter in Filters
      modifies this
      ensures Valid() && activeFilter == filter
    {
      activeFilter := filter;
    }

    /** The filter row as drawn: since the active filter is always one of
        the buttons, exactly that button is "default" and the others are
        "outline". */
    function ButtonVariants(): (r: seq<Variant>)
      requires Valid()
      reads this
      ensures |r| == |Filters|
      ensures forall i :: 0 <= i < |Filters| ==> (r[i] == Default <==> Filters[i] == activeFilter)
      ensures exists i :: 0 <= i < |Filters| && r[i] == Default
    {
      OneDefaultButton(activeFilter);
      Variants(activeFilter)
    }

    /** The cards as rendered: one per shown project, keyed by title, with
        delay `0.6 + index * 0.1` s, hidden until the section is visible. */
    function Cards(): (r: seq<Rendered>)
      reads this, latch
      ensures |r| == |Shown(activeFilter, AllProjects)|
      ensures forall i :: 0 <= i < |r| ==>
        r[i].key == Shown(activeFilter, AllProjects)[i].title &&
        r[i].delayTenths == 6 + i &&
        (r[i].cls == HiddenClass <==> !latch.isVisible)
    {
      var blocks := Staggered(Titles(Shown(activeFilter, AllProjects)), "animate-fade-in-up", 6);
      RenderRevealsIffVisible(latch.isVisible, blocks);
      Render(latch.isVisible, blocks)
    }

    function Blocks(): (r: seq<Rendered>)
      reads this, latch
      ensures |r| == |ProjectsBlocks|
      ensures forall i :: 0 <= i < |r| ==> (r[i].cls == HiddenClass <==> !latch.isVisible)
    {
      RenderRevealsIffVisible(latch.isVisible, ProjectsBlocks);
      Render(latch.isVisible, ProjectsBlocks)
    }
  }
}
