/**
 * The owner's project grid (`components/profile/user-projects.tsx`): one
 * `filter().sort()` pipeline over the projects, and the public and private
 * counts.
 */
module UserProjects {
  import opened Text
  import opened Lists
  import opened Sorting
  import opened Types

  /** The search box matches the title or the description, case-insensitively. */
  predicate MatchesSearch(p: Project, query: string) {
    MatchesQuery(p.title, query) || MatchesQuery(p.description, query)
  }

  /** The filter menu: "all", "public", "private", "remixed"; any other value lets nothing through. */
  predicate MatchesFilter(p: Project, filterBy: string) {
    || filterBy == "all"
    || (filterBy == "public" && p.visibility == Public)
    || (filterBy == "private" && p.visibility == Private)
    || (filterBy == "remixed" && p.remixedFrom.Some?)
  }

  predicate Shown(p: Project, query: string, filterBy: string) {
    MatchesSearch(p, query) && MatchesFilter(p, filterBy)
  }

  /** The sort menu's keys; every other value is the comparator that answers 0. */
  predicate KnownSort(sortBy: string) {
    sortBy == "recent" || sortBy == "oldest" || sortBy == "popular" || sortBy == "views"
  }

  /** The comparator of the sort menu applied to `ps`. */
  function SortProjects(ps: seq<Project>, sortBy: string): (r: seq<Project>)
    ensures multiset(r) == multiset(ps)
    ensures sortBy == "recent" ==> Descending(r, (p: Project) => p.updatedAt)
    ensures sortBy == "oldest" ==> Ascending(r, (p: Project) => p.createdAt)
    ensures sortBy == "popular" ==> Descending(r, (p: Project) => p.likes)
    ensures sortBy == "views" ==> Descending(r, (p: Project) => p.views)
    ensures !KnownSort(sortBy) ==> r == ps
  {
    match sortBy
    case "recent" => SortDesc(ps, (p: Project) => p.updatedAt)
    case "oldest" => SortAsc(ps, (p: Project) => p.createdAt)
    case "popular" => SortDesc(ps, (p: Project) => p.likes)
    case "views" => SortDesc(ps, (p: Project) => p.views)
    case _ =>
      SortConstantKey(ps, (p: Project) => 0);
      SortAsc(ps, (p: Project) => 0)
  }

  /** `filteredProjects`: the projects the search and the filter let through, in the chosen order. */
  function FilteredProjects(ps: seq<Project>, query: string, filterBy: string, sortBy: string): (r: seq<Project>)
    ensures forall p :: multiset(r)[p] == if Shown(p, query, filterBy) then multiset(ps)[p] else 0
    ensures sortBy == "recent" ==> Descending(r, (p: Project) => p.updatedAt)
    ensures sortBy == "oldest" ==> Ascending(r, (p: Project) => p.createdAt)
    ensures sortBy == "popular" ==> Descending(r, (p: Project) => p.likes)
    ensures sortBy == "views" ==> Descending(r, (p: Project) => p.views)
    ensures !KnownSort(sortBy) ==> Sublist(r, ps)
  {
    var kept := Filter(ps, (p: Project) => Shown(p, query, filterBy));
    FilterMultiset(ps, (p: Project) => Shown(p, query, filterBy));
    SortProjects(kept, sortBy)
  }

  /** With an empty search and the "all" filter every project is listed, each as often as it occurs. */
  lemma EverythingShown(ps: seq<Project>, sortBy: string)
    ensures multiset(FilteredProjects(ps, "", "all", sortBy)) == multiset(ps)
  {
    var r := FilteredProjects(ps, "", "all", sortBy);
    forall p: Project ensures Shown(p, "", "all") {
      IncludesEmpty(Lower(p.title));
    }
    assert forall p :: multiset(r)[p] == multiset(ps)[p];
  }

  /** The "remixed" filter with an empty search keeps exactly the remixes. */
  lemma RemixedFilter(ps: seq<Project>, sortBy: string)
    ensures forall p :: multiset(FilteredProjects(ps, "", "remixed", sortBy))[p] == if p.remixedFrom.Some? then multiset(ps)[p] else 0
  {
    forall p: Project ensures MatchesSearch(p, "") {
      IncludesEmpty(Lower(p.title));
    }
  }

  /** The public tab counter. */
  function PublicCount(ps: seq<Project>): nat {
    |Filter(ps, (p: Project) => p.visibility == Public)|
  }

  /** The private tab counter. */
  function PrivateCount(ps: seq<Project>): nat {
    |Filter(ps, (p: Project) => p.visibility == Private)|
  }

  /** Every project is public or private, so the two counters add up to the total. */
  lemma CountsAddUp(ps: seq<Project>)
    ensures PublicCount(ps) + PrivateCount(ps) == |ps|
  {
    FilterSplit(ps, (p: Project) => p.visibility == Public, (p: Project) => p.visibility == Private);
  }

}
