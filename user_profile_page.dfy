/**
 * The profile page (`components/profile/user-profile-page.tsx`): the owner's
 * project list is state that each handler replaces with a new array built by
 * `map`, `filter` or a prepend; the statistics are sums over that list.
 */
module UserProfilePage {
  import opened Wrappers
  import opened Text
  import opened Lists
  import opened Types

  /** The owner's summary counters. */
  function Stats(ps: seq<Project>): (r: ProjectStats)
    ensures r.totalRemixes <= |ps|
  {
    ProjectStats(
      Sum(ps, (p: Project) => p.views),
      Sum(ps, (p: Project) => p.likes),
      |Filter(ps, (p: Project) => p.remixedFrom.Some?)|)
  }

  /** The project after one press of its like button. */
  function Liked(p: Project): Project {
    p.(likes := if Truthy(p.isLiked) then p.likes - 1 else p.likes + 1, isLiked := Some(!Truthy(p.isLiked)))
  }

  /** Liking changes only `likes` and `isLiked`: `likes` moves by one towards the new state. */
  lemma LikedEffect(p: Project)
    ensures Liked(p).isLiked == Some(!Truthy(p.isLiked))
    ensures Liked(p).likes == p.likes + (if Truthy(p.isLiked) then -1 else 1)
    ensures Liked(p).(likes := p.likes, isLiked := p.isLiked) == p
  {
  }

  /** Liking twice restores the count, and restores the project when `isLiked` was set. */
  lemma LikedTwice(p: Project)
    ensures Liked(Liked(p)).likes == p.likes
    ensures p.isLiked.Some? ==> Liked(Liked(p)) == p
  {
    match p.isLiked
    case None =>
    case Some(b) =>
      assert Liked(p).isLiked == Some(!b);
      assert Liked(Liked(p)).isLiked == Some(b);
  }

  /** `handleLike(id)` on a project list. */
  function ToggleLike(ps: seq<Project>, id: string): (r: seq<Project>)
    ensures |r| == |ps|
    ensures forall i :: 0 <= i < |ps| ==> r[i] == if ps[i].id == id then Liked(ps[i]) else ps[i]
  {
    MapWhere(ps, (p: Project) => p.id == id, Liked)
  }

  /** `handleVisibilityChange(id, v)` on a project list. */
  function WithVisibility(ps: seq<Project>, id: string, v: Visibility): (r: seq<Project>)
    ensures |r| == |ps|
    ensures forall i :: 0 <= i < |ps| ==> r[i] == if ps[i].id == id then ps[i].(visibility := v) else ps[i]
  {
    MapWhere(ps, (p: Project) => p.id == id, (p: Project) => p.(visibility := v))
  }

  /** `handleDelete(id)` on a project list. */
  function Without(ps: seq<Project>, id: string): (r: seq<Project>)
    ensures forall i :: 0 <= i < |r| ==> r[i].id != id
    ensures forall i :: 0 <= i < |ps| && ps[i].id != id ==> ps[i] in r
    ensures Sublist(r, ps)
  {
    Filter(ps, (p: Project) => p.id != id)
  }

  /** What the remix dialog hands back. */
  datatype RemixRequest = RemixRequest(title: string, description: string, originalProjectId: string)

  /** The project a remix creates, at time `now` (milliseconds), credited to the original. */
  function RemixOf(original: Project, req: RemixRequest, owner: User, now: nat): Project {
    Project(
      "remix-" + NatToString(now), req.title, req.description, None,
      original.code, original.prompt, original.model, Public, now, now, owner,
      0, 0, Some(false), original.tags,
      Some(RemixCredit(original.id, original.title, original.author.username)),
      None, None, 0)
  }

  /** `handleRemixConfirm`: the original is looked up among the owner's and then the community's projects. */
  function AfterRemix(ps: seq<Project>, community: seq<Project>, req: RemixRequest, owner: User, now: nat): seq<Project> {
    match Find(ps + community, (p: Project) => p.id == req.originalProjectId)
    case None => ps
    case Some(o) => [RemixOf(o, req, owner, now)] + ps
  }

  /** Liking leaves the order, the ids and every other project alone. */
  lemma LikeKeepsOthers(ps: seq<Project>, id: string)
    ensures |ToggleLike(ps, id)| == |ps|
    ensures forall i :: 0 <= i < |ps| ==> ToggleLike(ps, id)[i].id == ps[i].id
    ensures forall i :: 0 <= i < |ps| && ps[i].id != id ==> ToggleLike(ps, id)[i] == ps[i]
  {
  }

  /** Liking the same id twice restores every like count, and the whole list when `isLiked` was always set. */
  lemma LikeTwice(ps: seq<Project>, id: string)
    ensures forall i :: 0 <= i < |ps| ==> ToggleLike(ToggleLike(ps, id), id)[i].likes == ps[i].likes
    ensures (forall i :: 0 <= i < |ps| ==> ps[i].isLiked.Some?) ==> ToggleLike(ToggleLike(ps, id), id) == ps
  {
    var r := ToggleLike(ToggleLike(ps, id), id);
    forall i | 0 <= i < |ps| ensures r[i].likes == ps[i].likes && (ps[i].isLiked.Some? ==> r[i] == ps[i]) {
      LikedTwice(ps[i]);
    }
  }

  /** Projects with exactly one occurrence of `id`. */
  predicate UniqueAt(ps: seq<Project>, id: string, k: nat) {
    k < |ps| && ps[k].id == id && forall j :: 0 <= j < |ps| && j != k ==> ps[j].id != id
  }

  /** A like on a project that occurs exactly once moves the total likes by one and keeps the other totals. */
  lemma LikeMovesTotal(ps: seq<Project>, id: string, k: nat)
    requires UniqueAt(ps, id, k)
    ensures Stats(ToggleLike(ps, id)).totalLikes == Stats(ps).totalLikes + (if Truthy(ps[k].isLiked) then -1 else 1)
    ensures Stats(ToggleLike(ps, id)).totalViews == Stats(ps).totalViews
    ensures Stats(ToggleLike(ps, id)).totalRemixes == Stats(ps).totalRemixes
  {
    var r := ToggleLike(ps, id);
    SumPointwise(r, ps, (p: Project) => p.views);
    FilterCountPointwise(r, ps, (p: Project) => p.remixedFrom.Some?);
    LikesMove(ps, id, k);
  }

  /** The like total moves by one, in the direction of the new state. */
  lemma {:induction false} LikesMove(ps: seq<Project>, id: string, k: nat)
    requires UniqueAt(ps, id, k)
    ensures Sum(ToggleLike(ps, id), (p: Project) => p.likes) == Sum(ps, (p: Project) => p.likes) + (if Truthy(ps[k].isLiked) then -1 else 1)
  {
    var r := ToggleLike(ps, id);
    assert r[1..] == ToggleLike(ps[1..], id);
    if k == 0 {
      SumPointwise(r[1..], ps[1..], (p: Project) => p.likes);
    } else {
      LikesMove(ps[1..], id, k - 1);
    }
  }

  /** Setting a visibility twice is setting it once. */
  lemma VisibilityIdempotent(ps: seq<Project>, id: string, v: Visibility)
    ensures WithVisibility(WithVisibility(ps, id, v), id, v) == WithVisibility(ps, id, v)
  {
  }

  /** Changing the visibility back to what all the matching projects had restores the list. */
  lemma VisibilityUndo(ps: seq<Project>, id: string, u: Visibility, v: Visibility)
    requires forall i :: 0 <= i < |ps| && ps[i].id == id ==> ps[i].visibility == u
    ensures WithVisibility(WithVisibility(ps, id, v), id, u) == ps
  {
  }

  /** Delete keeps every survivor as often as before, and deleting twice is deleting once. */
  lemma DeleteEffect(ps: seq<Project>, id: string)
    ensures forall p: Project :: p.id != id ==> multiset(Without(ps, id))[p] == multiset(ps)[p]
    ensures Without(Without(ps, id), id) == Without(ps, id)
    ensures (forall i :: 0 <= i < |ps| ==> ps[i].id != id) ==> Without(ps, id) == ps
  {
    FilterMultiset(ps, (p: Project) => p.id != id);
    FilterAll(Without(ps, id), (p: Project) => p.id != id);
    if forall i :: 0 <= i < |ps| ==> ps[i].id != id {
      FilterAll(ps, (p: Project) => p.id != id);
    }
  }

  /** A remix of an unknown project changes nothing. */
  lemma RemixUnknown(ps: seq<Project>, community: seq<Project>, req: RemixRequest, owner: User, now: nat)
    requires forall i :: 0 <= i < |ps| ==> ps[i].id != req.originalProjectId
    requires forall i :: 0 <= i < |community| ==> community[i].id != req.originalProjectId
    ensures AfterRemix(ps, community, req, owner, now) == ps
  {
    assert forall i :: 0 <= i < |ps + community| ==> (ps + community)[i].id != req.originalProjectId by {
      forall i | 0 <= i < |ps + community| ensures (ps + community)[i].id != req.originalProjectId {
        if i >= |ps| { assert (ps + community)[i] == community[i - |ps|]; }
      }
    }
  }

  /**
   * A remix of a known project prepends exactly one project: fresh counters,
   * public, the original's code, prompt, model and tags, and a credit naming
   * the original; the owner's earlier projects follow unchanged.
   */
  lemma RemixKnown(ps: seq<Project>, community: seq<Project>, req: RemixRequest, owner: User, now: nat, k: nat)
    requires k < |ps + community| && (ps + community)[k].id == req.originalProjectId
    ensures var r := AfterRemix(ps, community, req, owner, now);
      |r| == |ps| + 1 && r[1..] == ps &&
      r[0].likes == 0 && r[0].views == 0 && r[0].visibility == Public &&
      r[0].title == req.title && r[0].description == req.description && r[0].author == owner &&
      r[0].remixedFrom.Some? && r[0].remixedFrom.value.id == req.originalProjectId &&
      exists o :: o in ps + community && o.id == req.originalProjectId &&
        r[0].code == o.code && r[0].prompt == o.prompt && r[0].model == o.model && r[0].tags == o.tags &&
        r[0].remixedFrom.value == RemixCredit(o.id, o.title, o.author.username)
  {
    var f := Find(ps + community, (p: Project) => p.id == req.originalProjectId);
    assert f.Some?;
  }

  /** A successful remix adds one remix to the counters and no views or likes, since the copy starts at zero. */
  lemma RemixStats(ps: seq<Project>, community: seq<Project>, req: RemixRequest, owner: User, now: nat, k: nat)
    requires k < |ps + community| && (ps + community)[k].id == req.originalProjectId
    ensures Stats(AfterRemix(ps, community, req, owner, now)).totalViews == Stats(ps).totalViews
    ensures Stats(AfterRemix(ps, community, req, owner, now)).totalLikes == Stats(ps).totalLikes
    ensures Stats(AfterRemix(ps, community, req, owner, now)).totalRemixes == Stats(ps).totalRemixes + 1
  {
    var r := AfterRemix(ps, community, req, owner, now);
    RemixKnown(ps, community, req, owner, now, k);
    assert r[1..] == ps;
  }

  /** The page's state: the owner's projects and the remix dialog. */
  class ProfilePage {
    const owner: User
    const communityProjects: seq<Project>
    var userProjects: seq<Project>
    var remixProject: Option<Project>
    var showRemixDialog: bool

    constructor (owner: User, userProjects: seq<Project>, communityProjects: seq<Project>)
      ensures this.owner == owner && this.userProjects == userProjects && this.communityProjects == communityProjects
      ensures remixProject.None? && !showRemixDialog
    {
      this.owner := owner;
      this.userProjects := userProjects;
      this.communityProjects := communityProjects;
      remixProject := None;
      showRemixDialog := false;
    }

    /** The counters shown above the project tabs. */
    function CurrentStats(): (r: ProjectStats)
      reads this
      ensures r.totalRemixes <= |userProjects|
    {
      Stats(userProjects)
    }

    method HandleVisibilityChange(id: string, v: Visibility)
      modifies this`userProjects
      ensures userProjects == WithVisibility(old(userProjects), id, v)
    {
      userProjects := WithVisibility(userProjects, id, v);
    }

    /** Opens the remix dialog on `p`. */
    method HandleRemix(p: Project)
      modifies this`remixProject, this`showRemixDialog
      ensures remixProject == Some(p) && showRemixDialog
    {
      remixProject := Some(p);
      showRemixDialog := true;
    }

    /** `now` stands for `Date.now()`, which also names the new project. */
    method HandleRemixConfirm(req: RemixRequest, now: nat)
      modifies this`userProjects
      ensures userProjects == AfterRemix(old(userProjects), communityProjects, req, owner, now)
    {
      var original := Find(userProjects + communityProjects, (p: Project) => p.id == req.originalProjectId);
      if original.None? {
        return;
      }
      userProjects := [RemixOf(original.value, req, owner, now)] + userProjects;
    }

    method HandleLike(id: string)
      modifies this`userProjects
      ensures userProjects == ToggleLike(old(userProjects), id)
    {
      userProjects := ToggleLike(userProjects, id);
    }

    method HandleDelete(id: string)
      modifies this`userProjects
      ensures userProjects == Without(old(userProjects), id)
    {
      userProjects := Without(userProjects, id);
    }
  }
}
