/**
 * Followers and following (`components/social/follow-system.tsx`): the lists
 * filtered by a case-insensitive username search, and the follow / unfollow
 * buttons, which call back with a user id.  The callbacks' effects belong to
 * the caller; here each button is the action it would send.
 */
module FollowSystem {
  import opened Wrappers
  import opened Text
  import opened Lists
  import opened Types

  datatype FollowAction = Follow(userId: string) | Unfollow(userId: string)

  /** `isFollowing`: there is a signed-in user and the profile says they follow it. */
  predicate IsFollowing(currentUser: Option<User>, user: User) {
    currentUser.Some? && Truthy(user.isFollowing)
  }

  /** `isCurrentUser`: the profile is the signed-in user's own. */
  predicate IsCurrentUser(currentUser: Option<User>, user: User) {
    currentUser.Some? && currentUser.value.id == user.id
  }

  /** The follow button of the profile header is shown to a signed-in visitor only. */
  predicate ToggleShown(currentUser: Option<User>, user: User) {
    currentUser.Some? && currentUser.value.id != user.id
  }

  /** `handleFollowToggle`: unfollows when following, otherwise follows, always the profile's user. */
  function HandleFollowToggle(currentUser: Option<User>, user: User): (a: FollowAction)
    ensures a.userId == user.id
    ensures a.Unfollow? <==> IsFollowing(currentUser, user)
  {
    if IsFollowing(currentUser, user) then Unfollow(user.id) else Follow(user.id)
  }

  /** The button's caption matches what pressing it sends. */
  function ToggleCaption(currentUser: Option<User>, user: User): (s: string)
    ensures s == "Unfollow" <==> HandleFollowToggle(currentUser, user).Unfollow?
    ensures s == "Follow" <==> HandleFollowToggle(currentUser, user).Follow?
  {
    if IsFollowing(currentUser, user) then "Unfollow" else "Follow"
  }

  /** Once the caller has recorded the toggle, the next press undoes it. */
  lemma ToggleAlternates(currentUser: User, user: User)
    ensures var a := HandleFollowToggle(Some(currentUser), user);
      var after := user.(isFollowing := Some(a.Follow?));
      HandleFollowToggle(Some(currentUser), after) == (if a.Follow? then Unfollow(user.id) else Follow(user.id))
  {
  }

  /** A visible toggle never targets the signed-in user: the profile header hides it on one's own page. */
  lemma NoSelfFollow(currentUser: Option<User>, user: User)
    requires ToggleShown(currentUser, user)
    ensures !IsCurrentUser(currentUser, user)
    ensures HandleFollowToggle(currentUser, user).userId != currentUser.value.id
  {
  }

  /** The button on a row of the followers tab, `None` for oneself or when signed out. */
  function FollowerButton(currentUser: Option<User>, follower: User): (a: Option<FollowAction>)
    ensures a.None? <==> currentUser.None? || currentUser.value.id == follower.id
    ensures a.Some? ==> a.value.userId == follower.id && (a.value.Unfollow? <==> Truthy(follower.isFollowing))
  {
    if currentUser.Some? && currentUser.value.id != follower.id then
      Some(if Truthy(follower.isFollowing) then Unfollow(follower.id) else Follow(follower.id))
    else None
  }

  /** The button on a row of the following tab always unfollows. */
  function FollowingButton(currentUser: Option<User>, followed: User): (a: Option<FollowAction>)
    ensures a.None? <==> currentUser.None? || currentUser.value.id == followed.id
    ensures a.Some? ==> a.value == Unfollow(followed.id)
  {
    if currentUser.Some? && currentUser.value.id != followed.id then Some(Unfollow(followed.id)) else None
  }

  predicate UsernameMatches(u: User, query: string) {
    MatchesQuery(u.username, query)
  }

  /** `filteredFollowers` and `filteredFollowing`: the users whose name contains the query, ignoring case. */
  function FilteredUsers(us: seq<User>, query: string): (r: seq<User>)
    ensures Sublist(r, us)
    ensures forall i :: 0 <= i < |r| ==> UsernameMatches(r[i], query)
    ensures forall i :: 0 <= i < |us| && UsernameMatches(us[i], query) ==> us[i] in r
  {
    Filter(us, (u: User) => UsernameMatches(u, query))
  }

  /** An empty search box lists everyone. */
  lemma EmptySearchListsAll(us: seq<User>)
    ensures FilteredUsers(us, "") == us
  {
    forall i | 0 <= i < |us|
      ensures UsernameMatches(us[i], "")
    {
      IncludesEmpty(Lower(us[i].username));
    }
    FilterAll(us, (u: User) => UsernameMatches(u, ""));
  }

  /** The followers button's caption: singular for exactly one follower. */
  function FollowersCaption(followers: int): (s: string)
    ensures followers == 1 ==> s == "1 Follower"
    ensures followers != 1 ==> s == IntToString(followers) + " Followers"
  {
    IntToString(followers) + " " + (if followers == 1 then "Follower" else "Followers")
  }

  /** The text under "No followers found". */
  function NoFollowersText(username: string, query: string): (s: string)
    ensures query != "" ==> s == "No followers match your search"
    ensures query == "" ==> s == username + " doesn't have any followers yet"
  {
    if query != "" then "No followers match your search" else username + " doesn't have any followers yet"
  }

  /** The text under "Not following anyone". */
  function NoFollowingText(username: string, query: string): (s: string)
    ensures query != "" ==> s == "No followed users match your search"
    ensures query == "" ==> s == username + " isn't following anyone yet"
  {
    if query != "" then "No followed users match your search" else username + " isn't following anyone yet"
  }
}
