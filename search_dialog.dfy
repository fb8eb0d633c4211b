/**
 * The global search dialog (`components/search/search-dialog.tsx`): a query
 * of fewer than two non-blank characters clears the results without asking
 * the backend; otherwise the backend's answer (or nothing, when it fails)
 * becomes the result list, which the tabs filter by kind.  Choosing a
 * result closes the dialog and navigates to it.
 */
module SearchDialog {
  import opened Wrappers
  import opened Text
  import opened Lists
  import opened Types

  /** Whether the query is long enough to be sent: `query.trim().length >= 2`. */
  predicate Searchable(query: string) {
    |Trim(query)| >= 2
  }

  /** Whether a result belongs on the tab named `tab`. */
  predicate OnTab(r: SearchResult, tab: string) {
    tab == "all" || r.kind.Name() == tab
  }

  /** `filteredResults`: the results of the active tab, in the backend's order. */
  function FilteredResults(rs: seq<SearchResult>, tab: string): (r: seq<SearchResult>)
    ensures Sublist(r, rs)
    ensures tab == "all" ==> r == rs
    ensures tab != "all" ==> forall i :: 0 <= i < |r| ==> r[i].kind.Name() == tab
    ensures forall i :: 0 <= i < |rs| && OnTab(rs[i], tab) ==> rs[i] in r
  {
    if tab == "all" then
      FilterAll(rs, (x: SearchResult) => OnTab(x, tab));
      Filter(rs, (x: SearchResult) => OnTab(x, tab))
    else
      Filter(rs, (x: SearchResult) => OnTab(x, tab))
  }

  /** The number in a kind's tab label, e.g. `Projects (n)`. */
  function CountOf(rs: seq<SearchResult>, k: ResultKind): (n: nat)
    ensures n <= |rs|
  {
    if rs == [] then 0 else (if rs[0].kind == k then 1 else 0) + CountOf(rs[1..], k)
  }

  /** A kind's count is the length of that kind's tab. */
  lemma {:induction false} CountIsTabLength(rs: seq<SearchResult>, k: ResultKind)
    ensures CountOf(rs, k) == |FilteredResults(rs, k.Name())|
  {
    if rs != [] {
      CountIsTabLength(rs[1..], k);
      ResultNamesDistinct(rs[0].kind, k);
      assert k.Name() != "all";
    }
  }

  /** The three kind tabs together hold every result of the `All` tab. */
  lemma {:induction false} KindCountsAddUp(rs: seq<SearchResult>)
    ensures CountOf(rs, ProjectResult) + CountOf(rs, UserResult) + CountOf(rs, CommentResult) == |rs|
  {
    if rs != [] {
      KindCountsAddUp(rs[1..]);
    }
  }

  /** Where choosing a result navigates; a user result without a username prints "undefined". */
  function Route(r: SearchResult): (path: string)
    ensures r.kind == ProjectResult ==> path == "/project/" + r.id
    ensures r.kind == UserResult ==> path == "/profile/" + r.username.GetOr("undefined")
    ensures r.kind == CommentResult ==> path == "/project/" + r.id + "#comment-" + r.id
  {
    match r.kind
    case ProjectResult => "/project/" + r.id
    case UserResult => "/profile/" + r.username.GetOr("undefined")
    case CommentResult => "/project/" + r.id + "#comment-" + r.id
  }

  /** A comment result opens the page of the project with the same id, scrolled to the anchor. */
  lemma CommentOpensProjectPage(c: SearchResult, p: SearchResult)
    requires c.kind == CommentResult && p.kind == ProjectResult && c.id == p.id
    ensures Route(p) <= Route(c)
    ensures Route(c)[|Route(p)|..] == "#comment-" + c.id
  {
    assert Route(c) == Route(p) + ("#comment-" + c.id);
  }

  /** Two project results navigate to the same page only when their ids agree. */
  lemma ProjectRoutesInjective(a: SearchResult, b: SearchResult)
    requires a.kind == ProjectResult && b.kind == ProjectResult
    ensures Route(a) == Route(b) <==> a.id == b.id
  {
    if Route(a) == Route(b) {
      assert a.id == Route(a)[9..];
      assert b.id == Route(b)[9..];
    }
  }

  /** The heading and line of text shown when the active tab is empty. */
  function EmptyState(query: string, tab: string): (r: (string, string))
    ensures !Searchable(query) ==> r == ("Start typing to search", "Search for projects, users, or comments")
    ensures Searchable(query) ==> r.0 == "No results found"
    ensures Searchable(query) && tab == "all" ==> r.1 == "No results found for \"" + query + "\""
    ensures Searchable(query) && tab != "all" ==> r.1 == "No " + tab + "s found for \"" + query + "\""
  {
    if !Searchable(query) then ("Start typing to search", "Search for projects, users, or comments")
    else if tab == "all" then ("No results found", "No results found for \"" + query + "\"")
    else ("No results found", "No " + tab + "s found for \"" + query + "\"")
  }

  /** The name a result row is headed with. */
  function Heading(r: SearchResult): (h: Option<string>)
    ensures r.kind == UserResult ==> h == r.username
    ensures r.kind != UserResult ==> h == r.title
  {
    if r.kind == UserResult then r.username else r.title
  }

  /** The dialog's state. */
  class Dialog {
    var open: bool
    var query: string
    var results: seq<SearchResult>
    var isSearching: bool
    var activeTab: string

    constructor ()
      ensures !open && query == "" && results == [] && !isSearching && activeTab == "all"
    {
      open := false;
      query := "";
      results := [];
      isSearching := false;
      activeTab := "all";
    }

    /**
     * The debounced search, first half: a short query clears the results and
     * asks nothing; otherwise the spinner starts and `calls` says that the
     * backend is asked for `query`.
     */
    method BeginSearch() returns (calls: bool)
      modifies this`results, this`isSearching
      ensures calls <==> Searchable(query)
      ensures !calls ==> results == [] && isSearching == old(isSearching)
      ensures calls ==> results == old(results) && isSearching
    {
      if |Trim(query)| < 2 {
        results := [];
        return false;
      }
      isSearching := true;
      return true;
    }

    /**
     * The second half: `response` is the backend's answer, `None` when the
     * promise was rejected, which empties the list.  The spinner stops either way.
     */
    method EndSearch(response: Option<seq<SearchResult>>)
      modifies this`results, this`isSearching
      ensures response.Some? ==> results == response.value
      ensures response.None? ==> results == []
      ensures !isSearching
    {
      if response.Some? {
        results := response.value;
      } else {
        results := [];
      }
      isSearching := false;
    }

    /** Choosing a row: the dialog closes and `path` is where the router goes. */
    method HandleResultClick(r: SearchResult) returns (path: string)
      modifies this`open
      ensures !open
      ensures path == Route(r)
    {
      open := false;
      path := Route(r);
    }

    /** The clear button, shown only while the query is non-empty. */
    method ClearQuery()
      requires query != ""
      modifies this`query
      ensures query == ""
    {
      query := "";
    }
  }
}
