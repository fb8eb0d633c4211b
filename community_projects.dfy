/**
 * The Explore tab (`components/profile/community-projects.tsx`): the tag
 * list, the search and tag filter, and the three top-12 rankings.
 */
module CommunityProjects {
  import opened Text
  import opened Lists
  import opened Sorting
  import opened Types

  /** Strictly increasing in the default string order, hence free of duplicates. */
  predicate StrictlySorted(s: seq<string>) {
    forall i, j :: 0 <= i < j < |s| ==> LexLess(s[i], s[j])
  }

  lemma ConsSorted(y: string, r: seq<string>)
    requires StrictlySorted(r) && forall i :: 0 <= i < |r| ==> LexLess(y, r[i])
    ensures StrictlySorted([y] + r)
  {
    assert forall i :: 1 <= i < |[y] + r| ==> ([y] + r)[i] == r[i - 1];
  }

  lemma PrependSmaller(x: string, s: seq<string>)
    requires StrictlySorted(s) && s != [] && LexLess(x, s[0])
    ensures StrictlySorted([x] + s)
  {
    forall i | 0 <= i < |s| ensures LexLess(x, s[i]) {
      if i > 0 { LexTrans(x, s[0], s[i]); }
    }
    ConsSorted(x, s);
  }

  /** Adds one tag to a sorted tag list, unless it is already there. */
  function InsertTag(x: string, s: seq<string>): (r: seq<string>)
    requires StrictlySorted(s)
    ensures StrictlySorted(r)
    ensures forall t :: t in r <==> t in s || t == x
  {
    if s == [] then [x]
    else if x == s[0] then s
    else if LexLess(x, s[0]) then
      PrependSmaller(x, s);
      [x] + s
    else
      LexTotal(x, s[0]);
      var rest := InsertTag(x, s[1..]);
      assert forall i :: 0 <= i < |rest| ==> rest[i] in s[1..] || rest[i] == x;
      ConsSorted(s[0], rest);
      [s[0]] + rest
  }

  /** `projects.flatMap(p => p.tags)` */
  function FlatTags(ps: seq<Project>): (r: seq<string>)
    ensures forall t :: t in r <==> exists i :: 0 <= i < |ps| && t in ps[i].tags
  {
    if ps == [] then []
    else
      var rest := FlatTags(ps[1..]);
      assert forall t :: (exists i :: 0 <= i < |ps| && t in ps[i].tags) <==>
        (t in ps[0].tags || exists i :: 0 <= i < |ps[1..]| && t in ps[1..][i].tags) by {
        forall t | exists i :: 0 <= i < |ps| && t in ps[i].tags
          ensures t in ps[0].tags || exists i :: 0 <= i < |ps[1..]| && t in ps[1..][i].tags {
          var i :| 0 <= i < |ps| && t in ps[i].tags;
          if i > 0 { assert ps[1..][i - 1] == ps[i]; }
        }
      }
      ps[0].tags + rest
  }

  /** `Array.from(new Set(tags)).sort()` */
  function SortedUnique(ts: seq<string>): (r: seq<string>)
    ensures StrictlySorted(r)
    ensures forall t :: t in r <==> t in ts
  {
    if ts == [] then [] else InsertTag(ts[0], SortedUnique(ts[1..]))
  }

  /** `allTags`: every tag of every project, once each, in increasing order. */
  function AllTags(ps: seq<Project>): (r: seq<string>)
    ensures StrictlySorted(r) && Distinct(r)
    ensures forall t :: t in r <==> exists i :: 0 <= i < |ps| && t in ps[i].tags
  {
    var r := SortedUnique(FlatTags(ps));
    forall i, j | 0 <= i < j < |r| ensures r[i] != r[j] {
      LexTotal(r[i], r[i]);
    }
    r
  }

  /** The search box also looks at the author's username; the tag menu keeps projects carrying the tag. */
  predicate ExploreMatch(p: Project, query: string, selectedTag: string) {
    && (MatchesQuery(p.title, query) || MatchesQuery(p.description, query) || MatchesQuery(p.author.username, query))
    && (selectedTag == "all" || selectedTag in p.tags)
  }

  /** `filteredProjects` of the Explore tab. */
  function Explore(ps: seq<Project>, query: string, selectedTag: string): (r: seq<Project>)
    ensures Sublist(r, ps)
    ensures forall i :: 0 <= i < |r| ==> ExploreMatch(r[i], query, selectedTag)
    ensures forall i :: 0 <= i < |r| ==> selectedTag == "all" || selectedTag in r[i].tags
    ensures forall i :: 0 <= i < |ps| && ExploreMatch(ps[i], query, selectedTag) ==> ps[i] in r
  {
    Filter(ps, (p: Project) => ExploreMatch(p, query, selectedTag))
  }

  /** With an empty search and every tag, Explore lists everything. */
  lemma ExploreEverything(ps: seq<Project>)
    ensures Explore(ps, "", "all") == ps
  {
    forall i | 0 <= i < |ps| ensures ExploreMatch(ps[i], "", "all") {
      IncludesEmpty(Lower(ps[i].title));
    }
    FilterAll(ps, (p: Project) => ExploreMatch(p, "", "all"));
  }

  /** The trending score: a like weighs as much as two views. */
  function TrendingScore(p: Project): int {
    p.likes * 2 + p.views
  }

  /** The twelve highest trending scores, highest first. */
  function Trending(ps: seq<Project>): (r: seq<Project>)
    ensures |r| == Min(12, |ps|)
    ensures Descending(r, TrendingScore)
    ensures multiset(r) <= multiset(ps)
    ensures forall x, y :: x in multiset(r) && y in multiset(ps) - multiset(r) ==> TrendingScore(y) <= TrendingScore(x)
  {
    Top(ps, 12, TrendingScore)
  }

  function CreatedAt(p: Project): int {
    p.createdAt
  }

  function Likes(p: Project): int {
    p.likes
  }

  /** The twelve newest projects, newest first. */
  function Recent(ps: seq<Project>): (r: seq<Project>)
    ensures |r| == Min(12, |ps|)
    ensures Descending(r, CreatedAt)
    ensures multiset(r) <= multiset(ps)
    ensures forall x, y :: x in multiset(r) && y in multiset(ps) - multiset(r) ==> y.createdAt <= x.createdAt
  {
    Top(ps, 12, CreatedAt)
  }

  /** The twelve most liked projects, most liked first. */
  function Popular(ps: seq<Project>): (r: seq<Project>)
    ensures |r| == Min(12, |ps|)
    ensures Descending(r, Likes)
    ensures multiset(r) <= multiset(ps)
    ensures forall x, y :: x in multiset(r) && y in multiset(ps) - multiset(r) ==> y.likes <= x.likes
  {
    Top(ps, 12, Likes)
  }
}
