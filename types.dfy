/**
 * The records shared by the components (`types/user.ts`).  Dates are
 * milliseconds since the epoch; optional fields are `Option`s; the string
 * unions are datatypes.
 */
module Types {
  import opened Wrappers

  datatype Plan = Free | Pro | Enterprise

  datatype User = User(
    id: string,
    username: string,
    email: string,
    avatar: Option<string>,
    bio: Option<string>,
    location: Option<string>,
    website: Option<string>,
    joinDate: int,
    plan: Plan,
    followers: int,
    following: int,
    totalProjects: int,
    totalLikes: int,
    isFollowing: Option<bool>)

  datatype ProjectVersion = ProjectVersion(
    id: string,
    versionNumber: int,
    createdAt: int,
    code: string,
    prompt: string,
    model: string,
    description: string,
    changes: Option<string>)

  datatype Visibility = Public | Private {
    /** The other setting: what the visibility switch on a project card asks for. */
    function Opposite(): Visibility {
      if this == Public then Private else Public
    }
  }

  /** Where a remix came from: the original's id, title and author's username. */
  datatype RemixCredit = RemixCredit(id: string, title: string, author: string)

  datatype Project = Project(
    id: string,
    title: string,
    description: string,
    previewImage: Option<string>,
    code: string,
    prompt: string,
    model: string,
    visibility: Visibility,
    createdAt: int,
    updatedAt: int,
    author: User,
    likes: int,
    views: int,
    isLiked: Option<bool>,
    tags: seq<string>,
    remixedFrom: Option<RemixCredit>,
    versions: Option<seq<ProjectVersion>>,
    currentVersion: Option<int>,
    commentCount: int)

  datatype ProjectStats = ProjectStats(totalViews: int, totalLikes: int, totalRemixes: nat)

  datatype Comment = Comment(
    id: string,
    projectId: string,
    author: User,
    content: string,
    createdAt: int,
    updatedAt: Option<int>,
    isEdited: bool,
    parentId: Option<string>,
    replyCount: int,
    likes: int,
    isLiked: Option<bool>)

  datatype NotificationKind = CommentNotice | LikeNotice | FollowNotice | RemixNotice | MentionNotice {
    /** The `type` string of the notification. */
    function Name(): string {
      match this
      case CommentNotice => "comment"
      case LikeNotice => "like"
      case FollowNotice => "follow"
      case RemixNotice => "remix"
      case MentionNotice => "mention"
    }
  }

  datatype Notification = Notification(
    id: string,
    kind: NotificationKind,
    read: bool,
    createdAt: int,
    actor: User,
    projectId: Option<string>,
    commentId: Option<string>,
    message: string)

  datatype ResultKind = ProjectResult | UserResult | CommentResult {
    /** The `type` string of the search result. */
    function Name(): string {
      match this
      case ProjectResult => "project"
      case UserResult => "user"
      case CommentResult => "comment"
    }
  }

  datatype SearchResult = SearchResult(
    kind: ResultKind,
    id: string,
    title: Option<string>,
    description: Option<string>,
    username: Option<string>,
    avatar: Option<string>,
    previewImage: Option<string>,
    matchedOn: string,
    createdAt: int)

  /** Distinct notification kinds have distinct names, so a tab names at most one kind. */
  lemma NotificationNamesDistinct(a: NotificationKind, b: NotificationKind)
    ensures a.Name() == b.Name() ==> a == b
  {
  }

  /** Distinct result kinds have distinct names. */
  lemma ResultNamesDistinct(a: ResultKind, b: ResultKind)
    ensures a.Name() == b.Name() ==> a == b
  {
  }
}
