/**
 * A project's card (`components/profile/project-card.tsx`): the visibility
 * switch, the actions menu that depends on ownership, the tag badges and the
 * remix credit.
 */
module ProjectCard {
  import opened Wrappers
  import opened Text
  import opened Types

  /** The callbacks the card can fire. */
  datatype CardEvent =
    | VisibilityChange(projectId: string, visibility: Visibility)
    | RemixRequest(project: Project)
    | Like(projectId: string)
    | DeleteRequest(projectId: string)

  /** `handleVisibilityToggle`: the opposite setting, or nothing without `onVisibilityChange`. */
  function HandleVisibilityToggle(p: Project, hasCallback: bool): (e: Option<CardEvent>)
    ensures e.None? <==> !hasCallback
    ensures e.Some? ==> e.value.VisibilityChange? && e.value.projectId == p.id && e.value.visibility != p.visibility
  {
    if hasCallback then Some(VisibilityChange(p.id, p.visibility.Opposite())) else None
  }

  /** Applying the requested setting and toggling again asks for the original setting back. */
  lemma ToggleTwiceRestores(p: Project)
    ensures HandleVisibilityToggle(p.(visibility := HandleVisibilityToggle(p, true).value.visibility), true).value.visibility == p.visibility
  {
  }

  /** The menu item's caption names the setting the toggle asks for. */
  function ToggleCaption(v: Visibility): (r: string)
    ensures r == (if v.Opposite() == Private then "Make Private" else "Make Public")
  {
    if v == Public then "Make Private" else "Make Public"
  }

  /** The corner badge names the current setting. */
  function VisibilityBadge(v: Visibility): (r: string)
    ensures r == "Private" <==> v == Private
    ensures r == "Public" <==> v == Public
  {
    match v
    case Private => "Private"
    case Public => "Public"
  }

  datatype MenuItem = PreviewItem | RemixItem | VisibilityItem(caption: string) | DeleteItem

  /** The actions menu: Preview always, Remix for other people's projects, the owner's controls for one's own. */
  function Menu(p: Project, isOwner: bool, hasRemix: bool, hasVisibility: bool, hasDelete: bool): (r: seq<MenuItem>)
    ensures |r| >= 1 && r[0] == PreviewItem
    ensures RemixItem in r <==> !isOwner && hasRemix
    ensures VisibilityItem(ToggleCaption(p.visibility)) in r <==> isOwner && hasVisibility
    ensures DeleteItem in r <==> isOwner && hasDelete
    ensures forall i :: 0 <= i < |r| && r[i].VisibilityItem? ==> r[i].caption == ToggleCaption(p.visibility)
  {
    [PreviewItem]
    + (if !isOwner && hasRemix then [RemixItem] else [])
    + (if isOwner && hasVisibility then [VisibilityItem(ToggleCaption(p.visibility))] else [])
    + (if isOwner && hasDelete then [DeleteItem] else [])
  }

  /** No menu offers both Remix and an owner's control. */
  lemma RemixExcludesOwnerControls(p: Project, isOwner: bool, hasRemix: bool, hasVisibility: bool, hasDelete: bool)
    ensures var m := Menu(p, isOwner, hasRemix, hasVisibility, hasDelete);
            RemixItem in m ==> DeleteItem !in m && forall i :: 0 <= i < |m| ==> !m[i].VisibilityItem?
  {
  }

  /** What a menu item or the heart fires. */
  function Select(p: Project, item: MenuItem): (e: Option<CardEvent>)
    ensures item == PreviewItem <==> e.None?
    ensures item == RemixItem ==> e == Some(RemixRequest(p))
    ensures item == DeleteItem ==> e == Some(DeleteRequest(p.id))
    ensures item.VisibilityItem? ==> e == HandleVisibilityToggle(p, true)
  {
    match item
    case PreviewItem => None
    case RemixItem => Some(RemixRequest(p))
    case VisibilityItem(_) => HandleVisibilityToggle(p, true)
    case DeleteItem => Some(DeleteRequest(p.id))
  }

  /** `onLike?.(project.id)` */
  function PressLike(p: Project, hasLike: bool): (e: Option<CardEvent>)
    ensures e.Some? <==> hasLike
    ensures e.Some? ==> e.value == Like(p.id)
  {
    if hasLike then Some(Like(p.id)) else None
  }

  /** The tag row: hidden without tags; otherwise the first three and a "+n" badge for the rest. */
  datatype TagRow = TagRow(shown: seq<string>, more: Option<string>)

  function Tags(tags: seq<string>): (r: Option<TagRow>)
    ensures r.None? <==> |tags| == 0
    ensures r.Some? ==> r.value.shown == tags[..Min(3, |tags|)]
    ensures r.Some? ==> (r.value.more.Some? <==> |tags| > 3)
    ensures r.Some? && |tags| > 3 ==> r.value.more == Some("+" + NatToString(|tags| - 3))
  {
    if |tags| == 0 then None
    else
      var shown := tags[..Min(3, |tags|)];
      Some(TagRow(shown, if |tags| > 3 then Some("+" + NatToString(|tags| - 3)) else None))
  }

  /** The badges account for every tag: the shown ones plus the number on the "+n" badge. */
  lemma TagsAccountForAll(tags: seq<string>)
    requires |tags| > 0
    ensures var row := Tags(tags).value;
            |row.shown| + (if row.more.Some? then ParseDigits(row.more.value[1..]) else 0) == |tags|
    ensures var row := Tags(tags).value;
            forall i :: 0 <= i < |row.shown| ==> row.shown[i] == tags[i]
  {
    if |tags| > 3 {
      var row := Tags(tags).value;
      assert row.more.value[1..] == NatToString(|tags| - 3);
      NatToStringRoundTrip(|tags| - 3);
    }
  }

  /** The Remix badge and the credit line: present exactly for remixes. */
  function RemixCreditLine(p: Project): (r: Option<string>)
    ensures r.Some? <==> p.remixedFrom.Some?
    ensures r.Some? ==> r.value == "Remixed from " + p.remixedFrom.value.title + " by " + p.remixedFrom.value.author
  {
    match p.remixedFrom
    case None => None
    case Some(c) => Some("Remixed from " + c.title + " by " + c.author)
  }

  /** `username.charAt(0)`: the avatar's fallback letter, empty for an empty name. */
  function Initial(username: string): (r: string)
    ensures |r| == Min(1, |username|)
    ensures r <= username
  {
    if username == "" then "" else username[..1]
  }
}
