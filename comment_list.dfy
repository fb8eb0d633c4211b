/**
 * The comment thread (`components/comments/comment-list.tsx`): top-level
 * comments, replies grouped under their parent by a loop, the drafts and
 * toggles the handlers update, and who may edit, delete or report.
 */
module CommentList {
  import opened Wrappers
  import opened Text
  import opened Lists
  import opened Types

  /** `!comment.parentId`: no parent, or the empty string, which JavaScript treats as none. */
  predicate IsTopLevel(c: Comment) {
    !Present(c.parentId)
  }

  /** `comment.parentId` is truthy. */
  predicate IsReply(c: Comment) {
    Present(c.parentId)
  }

  /** `c` is a reply to the comment with id `k`. */
  predicate ReplyTo(c: Comment, k: string) {
    Present(c.parentId) && c.parentId.value == k
  }

  /** `topLevelComments` */
  function TopLevel(cs: seq<Comment>): (r: seq<Comment>)
    ensures forall i :: 0 <= i < |r| ==> IsTopLevel(r[i])
    ensures forall i :: 0 <= i < |cs| && IsTopLevel(cs[i]) ==> cs[i] in r
    ensures Sublist(r, cs)
  {
    Filter(cs, IsTopLevel)
  }

  /** The replies to comment `k`, in input order: what `repliesByParent[k]` should hold. */
  function Bucket(cs: seq<Comment>, k: string): seq<Comment> {
    if cs == [] then [] else (if ReplyTo(cs[0], k) then [cs[0]] else []) + Bucket(cs[1..], k)
  }

  /** A bucket is the order-preserving filter of the comments for replies to `k`. */
  lemma {:induction false} BucketIsFilter(cs: seq<Comment>, k: string)
    ensures Bucket(cs, k) == Filter(cs, (c: Comment) => ReplyTo(c, k))
  {
    if cs != [] {
      BucketIsFilter(cs[1..], k);
    }
  }

  lemma {:induction false} BucketSnoc(rs: seq<Comment>, x: Comment, k: string)
    ensures Bucket(rs + [x], k) == Bucket(rs, k) + (if ReplyTo(x, k) then [x] else [])
  {
    if rs == [] {
      assert rs + [x] == [x];
    } else {
      assert (rs + [x])[0] == rs[0] && (rs + [x])[1..] == rs[1..] + [x];
      BucketSnoc(rs[1..], x, k);
    }
  }

  /** Top-level comments fall in no bucket, so bucketing the replies alone changes nothing. */
  lemma {:induction false} BucketOfReplies(cs: seq<Comment>, k: string)
    ensures Bucket(Filter(cs, IsReply), k) == Bucket(cs, k)
  {
    if cs != [] {
      BucketOfReplies(cs[1..], k);
    }
  }

  /** A bucket is empty exactly when no comment replies to `k`. */
  lemma {:induction false} BucketEmptyIff(cs: seq<Comment>, k: string)
    ensures Bucket(cs, k) == [] <==> forall j :: 0 <= j < |cs| ==> !ReplyTo(cs[j], k)
  {
    if cs != [] {
      BucketEmptyIff(cs[1..], k);
      assert forall j :: 1 <= j < |cs| ==> cs[j] == cs[1..][j - 1];
    }
  }

  /** Some comment of `cs` replies to `k`. */
  predicate HasReply(cs: seq<Comment>, k: string) {
    exists j :: 0 <= j < |cs| && ReplyTo(cs[j], k)
  }

  /** A bucket has something in it exactly when some comment replies to `k`. */
  lemma BucketNonEmptyIff(cs: seq<Comment>, k: string)
    ensures Bucket(cs, k) != [] <==> HasReply(cs, k)
  {
    BucketEmptyIff(cs, k);
  }

  /** `m` groups the replies among `rs` by parent, and `parents` lists its keys once each. */
  ghost predicate Grouped(m: map<string, seq<Comment>>, parents: seq<string>, rs: seq<Comment>) {
    && Distinct(parents)
    && (forall k :: k in m <==> k in parents)
    && (forall k :: k in m ==> m[k] == Bucket(rs, k) && m[k] != [])
    && (forall k :: k !in m ==> Bucket(rs, k) == [])
  }

  /** One visit of the grouping loop keeps the grouping up to date. */
  lemma GroupStep(m: map<string, seq<Comment>>, parents: seq<string>, rs: seq<Comment>, reply: Comment,
                  m': map<string, seq<Comment>>, parents': seq<string>)
    requires Grouped(m, parents, rs)
    requires !Present(reply.parentId) ==> m' == m && parents' == parents
    requires Present(reply.parentId) ==>
      var k := reply.parentId.value;
      && parents' == (if k in m then parents else parents + [k])
      && m' == m[k := (if k in m then m[k] else []) + [reply]]
    ensures Grouped(m', parents', rs + [reply])
  {
    forall k {
      BucketSnoc(rs, reply, k);
    }
  }

  /** One visit of the `forEach`: push `reply` onto its parent's list, creating the list first. */
  function Push(m: map<string, seq<Comment>>, reply: Comment): map<string, seq<Comment>> {
    if Present(reply.parentId) then
      var k := reply.parentId.value;
      m[k := (if k in m then m[k] else []) + [reply]]
    else m
  }

  /** The key order after the same visit: a new parent id joins at the end. */
  function PushKey(parents: seq<string>, m: map<string, seq<Comment>>, reply: Comment): seq<string> {
    if Present(reply.parentId) && reply.parentId.value !in m then parents + [reply.parentId.value] else parents
  }

  /** The dictionary after visiting all of `rs` in order. */
  function GroupMap(rs: seq<Comment>): map<string, seq<Comment>> {
    if rs == [] then map[] else Push(GroupMap(rs[..|rs| - 1]), rs[|rs| - 1])
  }

  /** Its keys in creation order. */
  function GroupKeys(rs: seq<Comment>): seq<string> {
    if rs == [] then [] else PushKey(GroupKeys(rs[..|rs| - 1]), GroupMap(rs[..|rs| - 1]), rs[|rs| - 1])
  }

  /** The dictionary and key order one visit further along the replies. */
  lemma GroupPrefix(rs: seq<Comment>, i: nat)
    requires i < |rs|
    ensures GroupMap(rs[..i + 1]) == Push(GroupMap(rs[..i]), rs[i])
    ensures GroupKeys(rs[..i + 1]) == PushKey(GroupKeys(rs[..i]), GroupMap(rs[..i]), rs[i])
  {
    assert rs[..i + 1][..i] == rs[..i];
  }

  /** The loop's create-then-push is one `Push`, and its key bookkeeping one `PushKey`. */
  lemma PushMatches(m: map<string, seq<Comment>>, parents: seq<string>, reply: Comment,
                    m': map<string, seq<Comment>>, parents': seq<string>)
    requires !Present(reply.parentId) ==> m' == m && parents' == parents
    requires Present(reply.parentId) ==>
      var k := reply.parentId.value;
      var created := if k in m then m else m[k := []];
      && parents' == (if k in m then parents else parents + [k])
      && m' == created[k := created[k] + [reply]]
    ensures m' == Push(m, reply) && parents' == PushKey(parents, m, reply)
  {
  }

  /** Visiting replies one by one groups them by parent. */
  lemma {:induction false} GroupMapGroups(rs: seq<Comment>)
    ensures Grouped(GroupMap(rs), GroupKeys(rs), rs)
  {
    if rs != [] {
      var init := rs[..|rs| - 1];
      GroupMapGroups(init);
      assert rs == init + [rs[|rs| - 1]];
      GroupStep(GroupMap(init), GroupKeys(init), init, rs[|rs| - 1], GroupMap(rs), GroupKeys(rs));
    }
  }

  /**
   * `repliesByParent`, built as the source builds it: the replies are
   * visited in order and each is pushed onto its parent's list, which is
   * created on first use.  `parents` is the order in which keys were created.
   */
  method GroupReplies(cs: seq<Comment>) returns (m: map<string, seq<Comment>>, parents: seq<string>)
    ensures forall k :: k in m ==> m[k] == Bucket(cs, k)
    ensures forall k :: k in m <==> HasReply(cs, k)
    ensures Distinct(parents) && forall k :: k in m <==> k in parents
  {
    var replies := Filter(cs, IsReply);
    m, parents := map[], [];
    var i := 0;
    while i < |replies|
      invariant 0 <= i <= |replies|
      invariant m == GroupMap(replies[..i]) && parents == GroupKeys(replies[..i])
    {
      var reply := replies[i];
      GroupPrefix(replies, i);
      ghost var before, keysBefore := m, parents;
      if Present(reply.parentId) {
        var k := reply.parentId.value;
        if k !in m {
          m := m[k := []];
          parents := parents + [k];
        }
        m := m[k := m[k] + [reply]];
      }
      PushMatches(before, keysBefore, reply, m, parents);
      i := i + 1;
    }
    assert replies[..i] == replies;
    GroupedReplies(cs, m, parents);
  }

  /** Grouping the replies of `cs` gives each parent its bucket of `cs`, and only parents that have replies. */
  lemma GroupedReplies(cs: seq<Comment>, m: map<string, seq<Comment>>, parents: seq<string>)
    requires m == GroupMap(Filter(cs, IsReply)) && parents == GroupKeys(Filter(cs, IsReply))
    ensures forall k :: k in m ==> m[k] == Bucket(cs, k)
    ensures forall k :: k in m <==> HasReply(cs, k)
    ensures Distinct(parents) && forall k :: k in m <==> k in parents
  {
    var replies := Filter(cs, IsReply);
    GroupMapGroups(replies);
    assert Grouped(m, parents, replies);
    forall k ensures (k in m ==> m[k] == Bucket(cs, k)) && (k in m <==> HasReply(cs, k)) {
      BucketOfReplies(cs, k);
      GroupedAt(m, parents, replies, cs, k);
      BucketNonEmptyIff(cs, k);
    }
  }

  /** One key of a grouping of the replies: its list is the key's bucket of all comments. */
  lemma GroupedAt(m: map<string, seq<Comment>>, parents: seq<string>, replies: seq<Comment>, cs: seq<Comment>, k: string)
    requires Grouped(m, parents, replies) && Bucket(replies, k) == Bucket(cs, k)
    ensures k in m ==> m[k] == Bucket(cs, k)
    ensures k in m <==> Bucket(cs, k) != []
  {
  }

  /** The total size of the buckets named by `keys`. */
  function BucketSizes(cs: seq<Comment>, keys: seq<string>): nat {
    if keys == [] then 0 else |Bucket(cs, keys[0])| + BucketSizes(cs, keys[1..])
  }

  /** How many of `keys` name the parent of `c`. */
  function Hits(c: Comment, keys: seq<string>): nat {
    if keys == [] then 0 else (if ReplyTo(c, keys[0]) then 1 else 0) + Hits(c, keys[1..])
  }

  lemma {:induction false} HitsDistinct(c: Comment, keys: seq<string>)
    requires Distinct(keys)
    ensures Hits(c, keys) == if IsReply(c) && c.parentId.value in keys then 1 else 0
  {
    if keys != [] {
      HitsDistinct(c, keys[1..]);
      if ReplyTo(c, keys[0]) {
        assert c.parentId.value !in keys[1..];
      }
    }
  }

  lemma {:induction false} BucketSizesCons(c: Comment, rest: seq<Comment>, keys: seq<string>)
    ensures BucketSizes([c] + rest, keys) == Hits(c, keys) + BucketSizes(rest, keys)
  {
    if keys != [] {
      assert ([c] + rest)[0] == c && ([c] + rest)[1..] == rest;
      BucketSizesCons(c, rest, keys[1..]);
    }
  }

  /** With every parent id listed once, the buckets together hold every reply exactly once. */
  lemma {:induction false} BucketSizesCountReplies(cs: seq<Comment>, keys: seq<string>)
    requires Distinct(keys)
    requires forall j :: 0 <= j < |cs| && IsReply(cs[j]) ==> cs[j].parentId.value in keys
    ensures BucketSizes(cs, keys) == |Filter(cs, IsReply)|
  {
    if cs == [] {
      if keys != [] {
        assert BucketSizes(cs, keys[1..]) == 0 by { EmptyBuckets(keys[1..]); }
      }
    } else {
      assert cs == [cs[0]] + cs[1..];
      BucketSizesCons(cs[0], cs[1..], keys);
      HitsDistinct(cs[0], keys);
      BucketSizesCountReplies(cs[1..], keys);
    }
  }

  lemma {:induction false} EmptyBuckets(keys: seq<string>)
    ensures BucketSizes([], keys) == 0
  {
    if keys != [] {
      EmptyBuckets(keys[1..]);
    }
  }

  /** Top-level comments plus all the replies grouped under their parents account for every comment. */
  lemma ThreadCountsEveryComment(cs: seq<Comment>, m: map<string, seq<Comment>>, parents: seq<string>)
    requires forall k :: k in m <==> HasReply(cs, k)
    requires Distinct(parents) && forall k :: k in m <==> k in parents
    ensures |TopLevel(cs)| + BucketSizes(cs, parents) == |cs|
  {
    forall j | 0 <= j < |cs| && IsReply(cs[j]) ensures cs[j].parentId.value in parents {
      assert ReplyTo(cs[j], cs[j].parentId.value);
    }
    BucketSizesCountReplies(cs, parents);
    FilterSplit(cs, IsTopLevel, IsReply);
  }

  /** Every comment is top-level or sits in the one bucket of its parent, and in no other. */
  lemma ThreadPlacesEveryComment(cs: seq<Comment>, i: nat, k: string)
    requires i < |cs|
    ensures IsTopLevel(cs[i]) <==> cs[i] in TopLevel(cs)
    ensures cs[i] in Bucket(cs, k) <==> ReplyTo(cs[i], k)
    ensures IsTopLevel(cs[i]) ==> cs[i] !in Bucket(cs, k)
  {
    BucketIsFilter(cs, k);
  }

  /** The callbacks a comment list can fire. */
  datatype CommentAction =
    | AddComment(projectId: string, content: string, parentId: Option<string>)
    | EditComment(commentId: string, content: string)
    | DeleteComment(commentId: string)

  /** `isAuthor` */
  predicate IsAuthor(currentUser: Option<User>, c: Comment) {
    currentUser.Some? && currentUser.value.id == c.author.id
  }

  /** A signed-in user on a paid plan. */
  predicate IsPaying(currentUser: Option<User>) {
    currentUser.Some? && currentUser.value.plan != Free
  }

  datatype MenuItem = EditItem | DeleteItem | ReportItem

  /** The entries of a comment's "more" menu; an empty list means the menu button is not drawn. */
  function MenuItems(currentUser: Option<User>, c: Comment): seq<MenuItem> {
    (if IsAuthor(currentUser, c) then [EditItem, DeleteItem] else [])
    + (if !IsAuthor(currentUser, c) && IsPaying(currentUser) then [ReportItem] else [])
  }

  /** The menu button appears exactly when the viewer is the author or pays. */
  function MenuShown(currentUser: Option<User>, c: Comment): (r: bool)
    ensures r <==> MenuItems(currentUser, c) != []
  {
    IsAuthor(currentUser, c) || IsPaying(currentUser)
  }

  /** Edit and Delete are offered only to the author; Report only to a paying non-author. */
  lemma MenuRules(currentUser: Option<User>, c: Comment)
    ensures EditItem in MenuItems(currentUser, c) <==> IsAuthor(currentUser, c)
    ensures DeleteItem in MenuItems(currentUser, c) <==> IsAuthor(currentUser, c)
    ensures ReportItem in MenuItems(currentUser, c) <==> !IsAuthor(currentUser, c) && IsPaying(currentUser)
    ensures currentUser.None? ==> MenuItems(currentUser, c) == []
  {
  }

  /** What choosing a menu entry does: Report calls the same delete callback as Delete. */
  function MenuEffect(item: MenuItem, c: Comment): (r: Option<CommentAction>)
    ensures item == EditItem <==> r.None?
    ensures r.Some? ==> r.value == DeleteComment(c.id)
  {
    match item
    case EditItem => None
    case DeleteItem => Some(DeleteComment(c.id))
    case ReportItem => Some(DeleteComment(c.id))
  }

  /** The Reply button is drawn for signed-in viewers on comments not being edited. */
  predicate ReplyShown(currentUser: Option<User>, editingComment: Option<string>, c: Comment) {
    currentUser.Some? && editingComment != Some(c.id)
  }

  /** `expandedReplies[id]`, an absent key reading as false. */
  predicate IsExpanded(expanded: map<string, bool>, id: string) {
    id in expanded && expanded[id]
  }

  /** `toggleReplies(id)` on the expansion record. */
  function ToggledReplies(expanded: map<string, bool>, id: string): (r: map<string, bool>)
    ensures IsExpanded(r, id) == !IsExpanded(expanded, id)
    ensures forall k :: k != id ==> IsExpanded(r, k) == IsExpanded(expanded, k)
    ensures r.Keys == expanded.Keys + {id}
  {
    expanded[id := !IsExpanded(expanded, id)]
  }

  /** Toggling twice reads the same as not toggling. */
  lemma ToggleRepliesTwice(expanded: map<string, bool>, id: string, k: string)
    ensures IsExpanded(ToggledReplies(ToggledReplies(expanded, id), id), k) == IsExpanded(expanded, k)
  {
  }

  /** The Reply button opens the box on its comment, or closes it when it is already open there. */
  function ReplyPressed(replyingTo: Option<string>, id: string): (r: Option<string>)
    ensures replyingTo == Some(id) ==> r.None?
    ensures replyingTo != Some(id) ==> r == Some(id)
  {
    if replyingTo == Some(id) then None else Some(id)
  }

  /** The drafts and toggles of one comment list. */
  class CommentBox {
    const projectId: string
    var newComment: string
    var replyingTo: Option<string>
    var replyContent: string
    var editingComment: Option<string>
    var editContent: string
    var expandedReplies: map<string, bool>

    constructor (projectId: string)
      ensures this.projectId == projectId
      ensures newComment == "" && replyingTo.None? && replyContent == ""
      ensures editingComment.None? && editContent == "" && expandedReplies == map[]
    {
      this.projectId := projectId;
      newComment, replyingTo, replyContent := "", None, "";
      editingComment, editContent, expandedReplies := None, "", map[];
    }

    /** The Comment button; it is disabled exactly when this would fire nothing. */
    method HandleSubmitComment() returns (fired: Option<CommentAction>)
      modifies this`newComment
      ensures IsBlank(old(newComment)) ==> fired.None? && newComment == old(newComment)
      ensures !IsBlank(old(newComment)) ==> fired == Some(AddComment(projectId, old(newComment), None)) && newComment == ""
    {
      fired := None;
      if !IsBlank(newComment) {
        fired := Some(AddComment(projectId, newComment, None));
        newComment := "";
      }
    }

    method HandleSubmitReply(parentId: string) returns (fired: Option<CommentAction>)
      modifies this`replyingTo, this`replyContent
      ensures IsBlank(old(replyContent)) ==> fired.None? && replyContent == old(replyContent) && replyingTo == old(replyingTo)
      ensures !IsBlank(old(replyContent)) ==>
        fired == Some(AddComment(projectId, old(replyContent), Some(parentId))) && replyContent == "" && replyingTo.None?
    {
      fired := None;
      if !IsBlank(replyContent) {
        fired := Some(AddComment(projectId, replyContent, Some(parentId)));
        replyingTo := None;
        replyContent := "";
      }
    }

    method HandleSubmitEdit(commentId: string) returns (fired: Option<CommentAction>)
      modifies this`editingComment, this`editContent
      ensures IsBlank(old(editContent)) ==> fired.None? && editContent == old(editContent) && editingComment == old(editingComment)
      ensures !IsBlank(old(editContent)) ==>
        fired == Some(EditComment(commentId, old(editContent))) && editContent == "" && editingComment.None?
    {
      fired := None;
      if !IsBlank(editContent) {
        fired := Some(EditComment(commentId, editContent));
        editingComment := None;
        editContent := "";
      }
    }

    /** The Edit menu entry: the editor opens on the comment with its text. */
    method HandleStartEditing(c: Comment)
      modifies this`editingComment, this`editContent
      ensures editingComment == Some(c.id) && editContent == c.content
    {
      editingComment := Some(c.id);
      editContent := c.content;
    }

    method ToggleReplies(id: string)
      modifies this`expandedReplies
      ensures expandedReplies == ToggledReplies(old(expandedReplies), id)
    {
      expandedReplies := expandedReplies[id := !IsExpanded(expandedReplies, id)];
    }

    /** The Reply button of comment `id`. */
    method PressReply(id: string)
      modifies this`replyingTo
      ensures replyingTo == ReplyPressed(old(replyingTo), id)
    {
      replyingTo := if replyingTo == Some(id) then None else Some(id);
    }

    /** The Cancel buttons of the reply box and of the editor. */
    method CancelReply()
      modifies this`replyingTo
      ensures replyingTo.None?
    {
      replyingTo := None;
    }

    method CancelEdit()
      modifies this`editingComment
      ensures editingComment.None?
    {
      editingComment := None;
    }
  }
}
