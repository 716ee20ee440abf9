/**
 * The category filter of the projects section
 * (src/components/sections/Projects.tsx): the selected filter value, the
 * filtered list shown in the grid, and the empty-state message.
 */
module Projects {
  import opened Types
  import opened Sequences
  import Constants

  /** `type Category = 'all' | 'blockchain' | 'frontend' | 'fullstack'`. */
  datatype Category = All | Only(category: ProjectCategory)

  /** The four filter buttons, in the order they are drawn. */
  const FILTER_BUTTONS: seq<Category> := [All, Only(Blockchain), Only(Frontend), Only(Fullstack)]

  /** Text of a filter button: "All Projects" or the category literal. */
  function ButtonLabel(c: Category): (text: string)
    ensures text == "All Projects" <==> c == All
    ensures c.Only? ==> text == CategoryName(c.category)
  {
    match c
    case All => "All Projects"
    case Only(cat) => CategoryName(cat)
  }

  /** `projects.filter(project => project.category === category)`. */
  function FilterByCategory(ps: seq<Project>, c: ProjectCategory): (r: seq<Project>)
    ensures |r| <= |ps|
    ensures forall p :: p in r <==> p in ps && p.category == c
  {
    if ps == [] then []
    else if ps[0].category == c then [ps[0]] + FilterByCategory(ps[1..], c)
    else FilterByCategory(ps[1..], c)
  }

  /** The list drawn for a filter value: the whole list for `'all'`, else the equality filter. */
  function Filtered(filter: Category, ps: seq<Project>): (r: seq<Project>)
    ensures forall p :: p in r <==> p in ps && (filter == All || filter == Only(p.category))
  {
    match filter
    case All => ps
    case Only(c) => FilterByCategory(ps, c)
  }

  /** `filteredProjects`: the filter applied to the site's own project list. */
  function FilteredProjects(filter: Category): (shown: seq<Project>)
    ensures filter == All ==> shown == Constants.PROJECTS
    ensures forall p :: p in shown <==> p in Constants.PROJECTS && (filter == All || filter == Only(p.category))
  {
    Filtered(filter, Constants.PROJECTS)
  }

  /**
   * The "No projects found in this category" message is drawn iff no project
   * of the site's list passes the filter.
   */
  predicate ShowsEmptyState(filter: Category): (empty: bool)
    ensures empty <==> forall p :: p in Constants.PROJECTS ==> filter != All && filter != Only(p.category)
  {
    var shown := FilteredProjects(filter);
    assert shown != [] ==> shown[0] in shown;
    |shown| == 0
  }

  /** The `'all'` short-circuit hands back the list itself, in its order. */
  lemma FilterAllIsIdentity(ps: seq<Project>)
    ensures Filtered(All, ps) == ps
  {
  }

  /** The filter keeps the order of what it keeps. */
  lemma {:induction false} FilterIsSubsequence(ps: seq<Project>, c: ProjectCategory)
    ensures IsSubsequence(FilterByCategory(ps, c), ps)
  {
    if ps != [] {
      FilterIsSubsequence(ps[1..], c);
      var r := FilterByCategory(ps, c);
      if ps[0].category == c {
        assert r[0] == ps[0] && r[1..] == FilterByCategory(ps[1..], c);
      }
    }
  }

  /**
   * The filter keeps every matching project as often as it occurs and drops
   * every other one; with the order kept, this fixes the result.
   */
  lemma {:induction false} FilterMultiplicity(ps: seq<Project>, c: ProjectCategory, p: Project)
    ensures multiset(FilterByCategory(ps, c))[p] == if p.category == c then multiset(ps)[p] else 0
  {
    if ps != [] {
      FilterMultiplicity(ps[1..], c, p);
      assert ps == [ps[0]] + ps[1..];
    }
  }

  /** Filtering an already filtered list by the same category changes nothing. */
  lemma {:induction false} FilterIdempotent(ps: seq<Project>, c: ProjectCategory)
    ensures FilterByCategory(FilterByCategory(ps, c), c) == FilterByCategory(ps, c)
  {
    if ps != [] {
      FilterIdempotent(ps[1..], c);
    }
  }

  /** The filter result on a concatenation is the concatenation of the results. */
  lemma {:induction false} FilterAppend(xs: seq<Project>, ys: seq<Project>, c: ProjectCategory)
    ensures FilterByCategory(xs + ys, c) == FilterByCategory(xs, c) + FilterByCategory(ys, c)
  {
    if xs != [] {
      var s := xs + ys;
      assert s[0] == xs[0] && s[1..] == xs[1..] + ys;
      FilterAppend(xs[1..], ys, c);
      var head := if xs[0].category == c then [xs[0]] else [];
      assert FilterByCategory(s, c) == head + FilterByCategory(s[1..], c);
      assert FilterByCategory(xs, c) == head + FilterByCategory(xs[1..], c);
    } else {
      assert xs + ys == ys;
    }
  }

  /** The category union is closed: the three per-category lists together hold every project. */
  lemma {:induction false} CategoriesPartition(ps: seq<Project>)
    ensures |FilterByCategory(ps, Blockchain)| + |FilterByCategory(ps, Frontend)|
            + |FilterByCategory(ps, Fullstack)| == |ps|
  {
    if ps != [] {
      CategoriesPartition(ps[1..]);
    }
  }

  /** The filtered list is never longer than the full list, whatever the filter. */
  lemma FilteredIsBounded(filter: Category, ps: seq<Project>)
    ensures |Filtered(filter, ps)| <= |ps|
    ensures IsSubsequence(Filtered(filter, ps), ps)
  {
    match filter
    case All =>
      SelfSubsequence(ps);
    case Only(c) =>
      FilterIsSubsequence(ps, c);
  }

  lemma {:induction false} SelfSubsequence(ps: seq<Project>)
    ensures IsSubsequence(ps, ps)
  {
    if ps != [] {
      SelfSubsequence(ps[1..]);
    }
  }

  /** The categories of a project list, in order. */
  function CategoriesOf(ps: seq<Project>): seq<ProjectCategory> {
    Map(ps, (p: Project) => p.category)
  }

  /** How many projects a filter keeps is how often its category occurs in the list. */
  lemma {:induction false} FilterCountIsOccurrences(ps: seq<Project>, c: ProjectCategory)
    ensures |FilterByCategory(ps, c)| == multiset(CategoriesOf(ps))[c]
  {
    if ps != [] {
      FilterCountIsOccurrences(ps[1..], c);
      assert CategoriesOf(ps) == [ps[0].category] + CategoriesOf(ps[1..]);
    }
  }

  /** Per-category counts of any list whose categories are those of the site's projects. */
  lemma CountsOfSiteShape(ps: seq<Project>)
    requires CategoriesOf(ps) == [Blockchain, Blockchain, Fullstack, Fullstack, Fullstack, Frontend]
    ensures |FilterByCategory(ps, Blockchain)| == 2
    ensures |FilterByCategory(ps, Frontend)| == 1
    ensures |FilterByCategory(ps, Fullstack)| == 3
  {
    FilterCountIsOccurrences(ps, Blockchain);
    FilterCountIsOccurrences(ps, Frontend);
    FilterCountIsOccurrences(ps, Fullstack);
  }

  /** On the site's data: 2 blockchain, 1 frontend and 3 full-stack projects. */
  lemma SiteCategoryCounts()
    ensures |FilteredProjects(Only(Blockchain))| == 2
    ensures |FilteredProjects(Only(Frontend))| == 1
    ensures |FilteredProjects(Only(Fullstack))| == 3
    ensures |FilteredProjects(All)| == 6
  {
    CountsOfSiteShape(Constants.PROJECTS);
  }

  /** On the site's data no filter button ever leads to the empty state. */
  lemma NoButtonShowsEmptyState()
    ensures forall b :: b in FILTER_BUTTONS ==> !ShowsEmptyState(b)
  {
    SiteCategoryCounts();
  }

  /** The worked example: one blockchain and one frontend project, filter blockchain. */
  lemma FilterExample(a: Project, b: Project)
    requires a.category == Blockchain && b.category == Frontend
    ensures Filtered(Only(Blockchain), [a, b]) == [a]
  {
    assert [a, b][1..] == [b];
    assert [b][1..] == [];
    assert FilterByCategory([b], Blockchain) == [];
  }
}
