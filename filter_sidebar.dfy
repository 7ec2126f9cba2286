/** The filter sidebar's toggles and its clear action
    (src/components/molecules/FilterSidebar.jsx). Each handler builds the
    next filter object from the current one; nothing is mutated. */
module FilterSidebar {
  import opened Lists
  import opened FeedbackService

  /** The toggle of `handleCategoryChange` and `handleStatusChange`: every
      occurrence of a present value is removed, an absent value is appended. */
  function Toggle(values: seq<string>, v: string): seq<string>
  {
    if v in values then Filter(values, (x: string) => x != v) else values + [v]
  }

  /** `handleCategoryChange(category)`. */
  function ToggleCategory(f: Filters, category: string): (r: Filters)
    ensures r.statuses == f.statuses && r.search == f.search && r.sortBy == f.sortBy
  {
    f.(categories := Toggle(f.categories, category))
  }

  /** `handleStatusChange(status)`. */
  function ToggleStatus(f: Filters, status: string): (r: Filters)
    ensures r.categories == f.categories && r.search == f.search && r.sortBy == f.sortBy
  {
    f.(statuses := Toggle(f.statuses, status))
  }

  /** `clearFilters()`: the new object has no `sortBy` key, which reads as
      the empty mode. */
  function ClearFilters(): Filters
  {
    Filters([], [], "", "")
  }

  /** `hasActiveFilters` of the sidebar: the search box does not count. */
  predicate SidebarHasActiveFilters(f: Filters)
  {
    |f.categories| > 0 || |f.statuses| > 0
  }

  /** A toggle flips the membership of its value and of no other. A present
      value is removed with all its copies; an absent one goes to the end. */
  lemma ToggleMembership(values: seq<string>, v: string)
    ensures v in Toggle(values, v) <==> v !in values
    ensures forall x :: x != v ==> (x in Toggle(values, v) <==> x in values)
    ensures v !in values ==> Toggle(values, v) == values + [v]
    ensures v in values ==> forall x :: multiset(Toggle(values, v))[x] == if x == v then 0 else multiset(values)[x]
  {
  }

  /** Toggling an absent value twice gives the list back. */
  lemma ToggleTwiceAbsent(values: seq<string>, v: string)
    requires v !in values
    ensures Toggle(Toggle(values, v), v) == values
  {
    var p := (x: string) => x != v;
    FilterAppend(values, v, p);
    FilterAll(values, p);
  }

  /** Toggling a present value twice keeps the same values but moves that
      value to the end: on ["a", "b"], toggling "a" twice gives ["b", "a"]. */
  lemma ToggleTwicePresentMovesToEnd()
    ensures Toggle(Toggle(["a", "b"], "a"), "a") == ["b", "a"]
  {
    var p := (x: string) => x != "a";
    assert ["a", "b"][1..] == ["b"];
    assert ["b"][1..] == [];
    assert Filter(["a", "b"], p) == ["b"];
    assert "a" !in ["b"];
  }

  /** In every case toggling twice restores which values are selected. */
  lemma ToggleTwiceSameValues(values: seq<string>, v: string)
    ensures forall x :: x in Toggle(Toggle(values, v), v) <==> x in values
  {
    ToggleMembership(values, v);
    ToggleMembership(Toggle(values, v), v);
  }

  /** The feedback query looks only at which categories and statuses are
      selected, not at their order or repetition. */
  lemma QuerySeesOnlyMembership(posts: seq<Post>, f: Filters, g: Filters)
    requires forall x :: x in f.categories <==> x in g.categories
    requires forall x :: x in f.statuses <==> x in g.statuses
    requires f.search == g.search && f.sortBy == g.sortBy
    ensures Query(posts, f) == Query(posts, g)
  {
    assert f.categories == [] <==> g.categories == [] by {
      if f.categories != [] { assert f.categories[0] in g.categories; }
      if g.categories != [] { assert g.categories[0] in f.categories; }
    }
    assert f.statuses == [] <==> g.statuses == [] by {
      if f.statuses != [] { assert f.statuses[0] in g.statuses; }
      if g.statuses != [] { assert g.statuses[0] in f.statuses; }
    }
    FilterPostsIsKeeps(posts, f);
    FilterPostsIsKeeps(posts, g);
    FilterExt(posts, (p: Post) => Keeps(f, p), (p: Post) => Keeps(g, p));
  }

  /** So toggling a category or a status twice always gives the same board. */
  lemma ToggleTwiceSameBoard(posts: seq<Post>, f: Filters, category: string, status: string)
    ensures Query(posts, ToggleCategory(ToggleCategory(f, category), category)) == Query(posts, f)
    ensures Query(posts, ToggleStatus(ToggleStatus(f, status), status)) == Query(posts, f)
  {
    ToggleTwiceSameValues(f.categories, category);
    QuerySeesOnlyMembership(posts, ToggleCategory(ToggleCategory(f, category), category), f);
    ToggleTwiceSameValues(f.statuses, status);
    QuerySeesOnlyMembership(posts, ToggleStatus(ToggleStatus(f, status), status), f);
  }

  /** After clearing, nothing is active and the board lists every post in
      store order: without a `sortBy` key the query does not sort. */
  lemma ClearShowsEverything(posts: seq<Post>)
    ensures !SidebarHasActiveFilters(ClearFilters())
    ensures Query(posts, ClearFilters()) == posts
  {
    FilterPostsIsKeeps(posts, ClearFilters());
    FilterAll(posts, (p: Post) => Keeps(ClearFilters(), p));
  }

  /** The sidebar's indicator is on exactly when a category or a status is
      selected, whatever the search text. */
  lemma SidebarIgnoresSearch(f: Filters, search: string)
    ensures SidebarHasActiveFilters(f.(search := search)) == SidebarHasActiveFilters(f)
    ensures SidebarHasActiveFilters(f) <==> f.categories != [] || f.statuses != []
  {
  }
}
