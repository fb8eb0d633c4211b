# ai_vibe_coding — a Dafny model of the component logic

ai_vibe_coding is a Next.js/React front end for an AI-assisted coding site:
profiles with project grids and remixing, a community explore tab, an
activity feed, comments, notifications, search, follow lists, billing and
credit purchase, model pickers with credit gating, a credit meter, a
generation page, a playground and an AI IDE with editor tabs, a console and
a live preview. The components hold no deep algorithm; their behaviour is a
set of small, deterministic state and list transformations, and this
project restates each one in Dafny and proves what the interface relies on.

How the model is laid out:

- One module per component file, plus shared modules:
  - `Types` holds the records of `types/user.ts`;
  - `Wrappers` holds `Option`;
  - `Text` holds the JavaScript string operations used;
  - `Lists` holds `filter`, `map` and `reduce`;
  - `Sorting` holds the stable comparator sort;
  - `RelativeTime` holds the "Just now / Nm ago / Nh ago / Nd ago" buckets;
  - `Preview` holds the device widths;
  - `Console` holds the console messages shared by the playground and the IDE.
- Pure computations (filters, rankings, mappers, sanitisers, validation rules, menu rules) are functions with contracts. Lemmas relate them to each other: permutations and sublists, "only the target changes", idempotence, bounds, injectivity and round trips.
- State the components keep with `useState` and change in handlers is a `class`. Its fields are that state, and its methods are the handlers. Each method's `ensures` states the whole new state in terms of the specification functions.
- The repliesByParent dictionary is built by a loop, with invariants, against a recursive specification.
- A timer callback is a step method the caller invokes, such as a progress tick, a step tick or a timeout's completion. A value a pending timeout closes over is passed to that step explicitly.
- The current time is a parameter in milliseconds since the epoch. `Date.now()` ids are its decimal rendering.
- Money is whole cents.
- Percentages are compared by integer cross-multiplication.
- `toLowerCase` is ASCII-only.
- `String.prototype.replace` with a string pattern replaces the first occurrence. It honours the `$$`, `$&`, `` $` `` and `$'` patterns of the replacement.

## Model

| member | source | states |
|---|---|---|
| `ActivityFeed.SortedProjects` | components/social/activity-feed.tsx:21-32 | the feed is a permutation of the followed projects; "recent" puts newer first, "popular" more likes first, "trending" higher views + 2·likes first; any other mode keeps the input order |
| `ActivityFeed.SortedFeedUnchanged` | components/social/activity-feed.tsx:27-28 | a feed already ordered by views + 2·likes is shown unchanged (the sort is stable) |
| `ActivityFeed.FormatDate` | components/social/activity-feed.tsx:34-50 | "Just now" exactly when less than a minute has passed (including dates in the future); "Nm ago", "Nh ago", "Nd ago" with the floored count below an hour, a day and a week; the calendar date exactly from seven days on |
| `UserProjects.SortProjects` | components/profile/user-projects.tsx:51-64 | the sort is a permutation; "recent" orders by `updatedAt` descending, "oldest" by `createdAt` ascending, "popular" by likes and "views" by views descending; an unknown key keeps the order |
| `UserProjects.FilteredProjects` | components/profile/user-projects.tsx:37-64 | each project occurs in the result exactly as often as in the input when it matches the search (title or description, case-insensitive) and the filter, and not at all otherwise; the sort key's order holds; an unknown key gives an order-preserving sublist |
| `UserProjects.EverythingShown` | components/profile/user-projects.tsx:39-47 | an empty search with the "all" filter lists a permutation of all projects |
| `UserProjects.RemixedFilter` | components/profile/user-projects.tsx:47 | the "remixed" filter keeps exactly the projects that have `remixedFrom` |
| `UserProjects.CountsAddUp` | components/profile/user-projects.tsx:66-67 | the public and private counters add up to the number of projects |
| `CommunityProjects.InsertTag` | components/profile/community-projects.tsx:22 | inserting a tag into a strictly sorted tag list keeps it strictly sorted and adds exactly that tag |
| `CommunityProjects.FlatTags` | components/profile/community-projects.tsx:22 | `flatMap` of the tags holds exactly the tags some project carries |
| `CommunityProjects.SortedUnique` | components/profile/community-projects.tsx:22 | the set-then-sort of a tag list is strictly increasing and holds the same tags |
| `CommunityProjects.AllTags` | components/profile/community-projects.tsx:22 | `allTags` is strictly increasing, free of duplicates and holds exactly the tags of all projects |
| `CommunityProjects.Explore` | components/profile/community-projects.tsx:24-33 | Explore is an order-preserving sublist whose entries match the query on title, description or author name and carry the selected tag (unless "all"); every matching project is included |
| `CommunityProjects.ExploreEverything` | components/profile/community-projects.tsx:24-33 | an empty query with "all" tags lists every project in order |
| `CommunityProjects.Trending` | components/profile/community-projects.tsx:35-42 | min(12, n) projects drawn from the input, in non-increasing 2·likes + views; no project left out scores higher than one taken |
| `CommunityProjects.Recent` | components/profile/community-projects.tsx:44-46 | min(12, n) projects, newest first; no project left out is newer than one taken |
| `CommunityProjects.Popular` | components/profile/community-projects.tsx:48 | min(12, n) projects, most liked first; no project left out has more likes than one taken |
| `VersionHistory.SortedVersions` | components/versioning/version-history.tsx:40 | `sortedVersions` is a permutation of the versions with `versionNumber` non-increasing |
| `VersionHistory.Rows` | components/versioning/version-history.tsx:105-160 | one row per sorted version; Restore and View exactly on versions other than the current one, the "Current" badge exactly on the others; "Compare with previous" on every row but the last |
| `VersionHistory.RestoreOffered` | components/versioning/version-history.tsx:116-141 | every version other than the current one is offered for restore in some row |
| `VersionHistory.PreviousCode` | components/versioning/version-history.tsx:230-231 | the previous pane shows the code of the first version numbered one below the selection; "No code available" when there is none (or its code is empty) |
| `VersionHistory.VersionList.constructor` | components/versioning/version-history.tsx:36-38 | nothing selected and both dialogs closed |
| `VersionHistory.VersionList.PressRestore` | components/versioning/version-history.tsx:129-132 | Restore selects the row's version and opens the confirmation |
| `VersionHistory.VersionList.HandleRevert` | components/versioning/version-history.tsx:52-57 | with no selection nothing fires and the dialog stays as it was; otherwise `(projectId, selected id)` fires and the dialog closes |
| `VersionHistory.VersionList.HandleCompare` | components/versioning/version-history.tsx:59-62 | Compare selects the version and opens the diff |
| `NotificationCenter.UnreadCount` | components/notifications/notification-center.tsx:29 | the unread count is at most the number of notifications and is zero exactly when all are read |
| `NotificationCenter.FilteredNotifications` | components/notifications/notification-center.tsx:31-35 | an order-preserving sublist; "all" keeps everything; "unread" keeps `unreadCount` unread ones; a type tab keeps only that type; every notification on the tab is kept |
| `NotificationCenter.FilterSame` | components/notifications/notification-center.tsx:31-35 | two filter tests that agree on every notification select the same list |
| `NotificationCenter.KindTabsDisjoint` | components/notifications/notification-center.tsx:34 | the tabs of two different types share no notification |
| `NotificationCenter.Badge` | components/notifications/notification-center.tsx:77-84 | the badge is hidden exactly at zero, reads "9+" exactly above nine, and the count otherwise |
| `NotificationCenter.MarkAllShown` | components/notifications/notification-center.tsx:90-95 | "Mark all as read" is offered exactly when some notification is unread |
| `NotificationCenter.MarkOneShown` | components/notifications/notification-center.tsx:176 | the per-item mark button is shown on unread notifications only |
| `NotificationCenter.EmptyText` | components/notifications/notification-center.tsx:138-142 | the empty-tab message for "all", "unread" and each type tab |
| `NotificationCenter.FormatDate` | components/notifications/notification-center.tsx:37-52 | "Just now" exactly under a minute (future dates included); "Nm ago", "Nh ago", "Nd ago" with the floored count below an hour, a day and a week; the calendar date exactly from seven days on |
| `RelativeTime.LastActiveAge` | components/collaboration/collaboration-panel.tsx:160-171 | the last-active formatter never falls back to a calendar date |
| `RelativeTime.HoursOfMinutes` | components/social/activity-feed.tsx:37-38 | flooring to minutes and then to hours is flooring to hours |
| `RelativeTime.DaysOfHours` | components/social/activity-feed.tsx:38-39 | flooring to hours and then to days is flooring to days |
| `RelativeTime.AgeRanges` | components/social/activity-feed.tsx:37-44 | the buckets as millisecond ranges: under a minute, under an hour, under a day, under a week, and the calendar date from a week on, each bucket carrying the floored count |
| `RelativeTime.LastActiveRanges` | components/collaboration/collaboration-panel.tsx:164-171 | the uncapped formatter agrees with the capped one below a week and says at least "7d ago" beyond it |
| `RelativeTime.FutureIsJustNow` | components/social/activity-feed.tsx:37-41 | a negative difference (a date in the future) always reads "Just now" |
| `RelativeTime.AgeOf` | components/social/activity-feed.tsx:36-44 | "Just now" exactly under 60000 ms; a minutes count is always 1..59, an hours count 1..23, a days count 1..6 |
| `RelativeTime.Label` | components/social/activity-feed.tsx:41-44 | "Just now", then the count followed by "m ago", "h ago" or "d ago"; only the calendar bucket has no text of its own |
| `RelativeTime.SuffixedInjective` | components/social/activity-feed.tsx:42-44 | a rendered count followed by its unit letter and " ago" determines both the count and the unit |
| `RelativeTime.LabelInjective` | components/social/activity-feed.tsx:41-44 | two buckets with the same text are the same bucket |
| `RelativeTime.LabelJustNow` | components/social/activity-feed.tsx:41 | "Just now" is the text of the first bucket and no other |
| `RelativeTime.SuffixEquals` | components/social/activity-feed.tsx:42-44 | two counted buckets with the same text are equal |
| `CollaborationPanel.Collaborators` | components/collaboration/collaboration-panel.tsx:41-76 | four collaborators, the current user first; everyone else has a different id and a last-active time no later than the page load |
| `CollaborationPanel.RosterLastActive` | components/collaboration/collaboration-panel.tsx:307-312 | the roster shows a last-active time on every entry except the first |
| `CollaborationPanel.FormatLastActive` | components/collaboration/collaboration-panel.tsx:157-172 | "Never" exactly when there is no date; "Just now" exactly under a minute; "Nm ago" below an hour and "Nh ago" below a day, with floored counts; from a day on, the floored number of days with no upper cap |
| `CollaborationPanel.Panel.constructor` | components/collaboration/collaboration-panel.tsx:106-108 | the chat starts with the given messages, an empty draft and a private project; when no given message is blank, the no-blank-message invariant that sending keeps holds from the start |
| `CollaborationPanel.Panel.SendMessage` | components/collaboration/collaboration-panel.tsx:110-122 | a blank draft changes nothing; otherwise exactly one message is appended, from the current user, with the untrimmed draft, and the draft is cleared; every message keeps some text |
| `CollaborationPanel.Panel.SetVisibility` | components/collaboration/collaboration-panel.tsx:201-209 | the Share menu sets the project's visibility |
| `SearchDialog.FilteredResults` | components/search/search-dialog.tsx:50-53 | an order-preserving sublist of the results; "all" keeps everything, any other tab only results of that type, and every result on the tab is kept |
| `SearchDialog.Searchable` | components/search/search-dialog.tsx:29 | a query is sent exactly when it has at least two characters after trimming |
| `SearchDialog.CountOf` | components/search/search-dialog.tsx:139-151 | a kind's tab number never exceeds the number of results |
| `SearchDialog.CountIsTabLength` | components/search/search-dialog.tsx:139-151 | the number in a kind's tab label is the length of that tab's list |
| `SearchDialog.KindCountsAddUp` | components/search/search-dialog.tsx:133-151 | the project, user and comment counts add up to the "All" count |
| `SearchDialog.Route` | components/search/search-dialog.tsx:58-64 | a project opens `/project/{id}`, a user `/profile/{username}`, a comment `/project/{id}#comment-{id}` |
| `SearchDialog.CommentOpensProjectPage` | components/search/search-dialog.tsx:59-63 | a comment's route is its project's route followed by the comment anchor |
| `SearchDialog.ProjectRoutesInjective` | components/search/search-dialog.tsx:59 | two project results share a route exactly when their ids agree |
| `SearchDialog.EmptyState` | components/search/search-dialog.tsx:161-171 | "Start typing to search" exactly when the trimmed query is shorter than two characters, else "No results found" with the tab-specific line |
| `SearchDialog.Heading` | components/search/search-dialog.tsx:192 | user results are headed by the username, the others by the title |
| `SearchDialog.Dialog.constructor` | components/search/search-dialog.tsx:20-24 | closed, empty query, no results, not searching, tab "all" |
| `SearchDialog.Dialog.BeginSearch` | components/search/search-dialog.tsx:28-36 | the backend is asked exactly when the trimmed query has at least two characters; a short query empties the results without asking |
| `SearchDialog.Dialog.EndSearch` | components/search/search-dialog.tsx:36-43 | a successful search shows the backend's results, a failed one none; the spinner stops either way |
| `SearchDialog.Dialog.HandleResultClick` | components/search/search-dialog.tsx:55-65 | choosing a result closes the dialog and navigates to its route |
| `SearchDialog.Dialog.ClearQuery` | components/search/search-dialog.tsx:114-119 | the clear button, shown only for a non-empty query, empties it |
| `FollowSystem.HandleFollowToggle` | components/social/follow-system.tsx:44-50 | the toggle targets the profile's user and unfollows exactly when someone is signed in and the profile says they follow it (also line 34) |
| `FollowSystem.ToggleShown` | components/social/follow-system.tsx:195 | the profile's follow button is drawn for a signed-in visitor who is not that user |
| `FollowSystem.ToggleCaption` | components/social/follow-system.tsx:197-207 | the caption reads "Unfollow" exactly when pressing unfollows and "Follow" exactly when it follows |
| `FollowSystem.ToggleAlternates` | components/social/follow-system.tsx:44-50 | once the caller records the toggle, the next press does the opposite |
| `FollowSystem.NoSelfFollow` | components/social/follow-system.tsx:195 | a visible toggle never targets the signed-in user |
| `FollowSystem.FollowerButton` | components/social/follow-system.tsx:115-119 | no button for oneself or when signed out; otherwise it targets the follower and unfollows exactly when `isFollowing` is set |
| `FollowSystem.FollowingButton` | components/social/follow-system.tsx:170-171 | no button for oneself or when signed out; otherwise it unfollows that user |
| `FollowSystem.FilteredUsers` | components/social/follow-system.tsx:36-42 | an order-preserving sublist holding exactly the users whose lowercased name contains the lowercased query |
| `FollowSystem.EmptySearchListsAll` | components/social/follow-system.tsx:36-42 | an empty search lists every user in order |
| `FollowSystem.FollowersCaption` | components/social/follow-system.tsx:59 | "Follower" for exactly one follower, "Followers" otherwise |
| `FollowSystem.NoFollowersText` | components/social/follow-system.tsx:93-95 | the empty followers tab explains a non-matching search or a user with no followers |
| `FollowSystem.NoFollowingText` | components/social/follow-system.tsx:148-150 | the empty following tab explains a non-matching search or a user who follows no one |
| `BillingHistory.TransactionsShape` | components/payment/billing-history.tsx:21-62 | the fixed history is newest first, its ids are distinct and every row has an invoice to download |
| `BillingHistory.FilteredTransactions` | components/payment/billing-history.tsx:67-71 | an order-preserving sublist holding exactly the rows whose description or id contains the query, ignoring case |
| `BillingHistory.DownloadShown` | components/payment/billing-history.tsx:145 | the download button needs an invoice that is present and not empty (JavaScript truthiness) |
| `BillingHistory.EmptySearchShowsAll` | components/payment/billing-history.tsx:67-71 | an empty search keeps every transaction in order |
| `BillingHistory.Capitalize` | components/payment/billing-history.tsx:141 | the same length, the first letter upper-cased and the rest unchanged |
| `BillingHistory.StatusLabel` | components/payment/billing-history.tsx:141 | the badge is the status name with a capital first letter: lower-casing it gives the name back |
| `BillingHistory.StatusLabelInjective` | components/payment/billing-history.tsx:141 | different statuses get different badges |
| `BillingHistory.AmountText` | components/payment/billing-history.tsx:138 | a dollar sign, the whole dollars, a point and exactly two digits holding the cents |
| `BillingHistory.AmountTextInjective` | components/payment/billing-history.tsx:138 | different amounts never print alike |
| `AiModelSelector.CatalogueShape` | components/ai-integration/ai-model-selector.tsx:29-105 | the ids are distinct, every cost is between the free model's and 8 credits, and only the first model is on the free tier |
| `AiModelSelector.CurrentModel` | components/ai-integration/ai-model-selector.tsx:114 | the catalogue entry with the selected id, or the first entry when there is none |
| `AiModelSelector.CanUseModel` | components/ai-integration/ai-model-selector.tsx:129-131 | a model is usable exactly when the available credits cover its cost per request |
| `AiModelSelector.CanUseMonotone` | components/ai-integration/ai-model-selector.tsx:129-131 | `canUseModel` is monotone in the available credits |
| `AiModelSelector.HandleClick` | components/ai-integration/ai-model-selector.tsx:157-159 | a click asks for the model exactly when its cost is covered, and then for that model's id |
| `AiModelSelector.InsufficientBadge` | components/ai-integration/ai-model-selector.tsx:180-184 | the "Insufficient credits" badge marks exactly the models that cannot be used, the ones a click does not select |
| `AiModelSelector.ClickShown` | components/ai-integration/ai-model-selector.tsx:114 | an accepted click makes the chosen model the shown one, and it is affordable (also line 157) |
| `AiModelSelector.SelectedBadgeUnique` | components/ai-integration/ai-model-selector.tsx:169 | at most one item carries the Selected badge |
| `AiModelSelector.CostBadge` | components/ai-integration/ai-model-selector.tsx:168 | the cost badge is the credit count followed by "c" |
| `AiModelSelector.Affordable` | components/ai-integration/ai-model-selector.tsx:151-159 | the enabled items are the order-preserving sublist of exactly the models the balance covers |
| `AiModelSelector.AffordableBounds` | components/ai-integration/ai-model-selector.tsx:29-105 | below one credit no item is enabled; from one credit the free model is; from eight credits every model is (also lines 129-131) |
| `AiModelSelector.NoneAffordable` | components/ai-integration/ai-model-selector.tsx:129-131 | when no model is covered, no item is enabled |
| `ModelSelector.BasicIdsDistinct` | components/ai-model-selector.tsx:24-57 | the catalogue ids are distinct |
| `ModelSelector.CurrentBasicModel` | components/ai-model-selector.tsx:65 | the entry with the selected id, or GPT-4 (the first) when there is none |
| `ModelSelector.BasicClick` | components/ai-model-selector.tsx:98 | every click asks for the clicked model, with no credit gate |
| `ModelSelector.BasicChoiceShown` | components/ai-model-selector.tsx:65 | after a click the chosen model is shown and is the only one badged Selected (also lines 98, 104) |
| `CreditTracker.Remaining` | components/credit-tracker.tsx:23 | remaining plus used is the total |
| `CreditTracker.ProgressColor` | components/credit-tracker.tsx:24-43 | red exactly from 90 % used, yellow exactly from 70 % up to 90 %, green below 70 %; a zero total follows JavaScript's Infinity and NaN |
| `CreditTracker.ColorMonotone` | components/credit-tracker.tsx:39-43 | for a positive total the colour only gets more alarming as more credits are used |
| `CreditTracker.ColorThresholds` | components/credit-tracker.tsx:24-43 | for a positive total the thresholds without division: red iff 10·used ≥ 9·total, green iff 10·used < 7·total |
| `CreditTracker.HandleUpgrade` | components/credit-tracker.tsx:45-51 | the caller's handler exactly when one is given, otherwise `/billing/upgrade` |
| `CreditTracker.HandleBuyCredits` | components/credit-tracker.tsx:53-55 | Buy Credits navigates to `/billing/purchase` |
| `CreditTracker.UpgradeShown` | components/credit-tracker.tsx:91-96 | the Upgrade button is drawn for a free plan with fewer than five credits remaining |
| `CreditTracker.UpgradeMeansLow` | components/credit-tracker.tsx:91 | the Upgrade button appears only on a free plan with fewer than five credits left |
| `CreditPurchase.SelectedPackage` | components/payment/credit-purchase.tsx:17-21 | the package with the watched id, or Standard (index 1) when no package has that id (also line 48) |
| `CreditPurchase.PackageCatalogue` | components/payment/credit-purchase.tsx:17-21 | the package ids are distinct, exactly Standard is marked popular, and the form starts on it (also line 40) |
| `CreditPurchase.NameValid` | components/payment/credit-purchase.tsx:25 | the card name has at least two characters |
| `CreditPurchase.CardValid` | components/payment/credit-purchase.tsx:26 | `^\d{16}$`: exactly sixteen characters, all digits |
| `CreditPurchase.ExpiryValid` | components/payment/credit-purchase.tsx:27 | `^\d{2}\/\d{2}$`: two digits, a slash, two digits |
| `CreditPurchase.CvvValid` | components/payment/credit-purchase.tsx:28 | `^\d{3,4}$`: three or four characters, all digits |
| `CreditPurchase.FormValid` | components/payment/credit-purchase.tsx:23-29 | the schema accepts a form exactly when all four card fields pass their rules; the package is any string |
| `CreditPurchase.SanitizeCard` | components/payment/credit-purchase.tsx:167 | the card field holds only digits, at most 16, and exactly the first min(16, n) digits typed |
| `CreditPurchase.SanitizeCvv` | components/payment/credit-purchase.tsx:215 | the CVV field holds only digits, at most 4, and exactly the first min(4, n) digits typed |
| `CreditPurchase.FormatExpiry` | components/payment/credit-purchase.tsx:190-193 | up to two digits are kept as they are; beyond that the first two digits, "/" and at most two more; at most five characters, all digits except index 2 |
| `CreditPurchase.SanitizeIdempotent` | components/payment/credit-purchase.tsx:167 | sanitising an already sanitised card number or CVV changes nothing (also line 215) |
| `CreditPurchase.FormatExpiryIdempotent` | components/payment/credit-purchase.tsx:190-193 | formatting a formatted expiry date again changes nothing |
| `CreditPurchase.SlashedDigits` | components/payment/credit-purchase.tsx:190-192 | removing the non-digits of a formatted `MM/YY` gives back the digits it was built from |
| `CreditPurchase.DigitsOnlyConcat` | components/payment/credit-purchase.tsx:167 | `replace(/\D/g, "")` distributes over concatenation |
| `CreditPurchase.CardAccepted` | components/payment/credit-purchase.tsx:26 | a sanitised card number passes `^\d{16}$` exactly when at least 16 digits were typed (also line 167) |
| `CreditPurchase.CvvAccepted` | components/payment/credit-purchase.tsx:28 | a sanitised CVV passes `^\d{3,4}$` exactly when at least 3 digits were typed (also line 215) |
| `CreditPurchase.ExpiryAccepted` | components/payment/credit-purchase.tsx:190-193 | a formatted expiry passes `^\d{2}\/\d{2}$` exactly when at least 4 digits were typed (also line 27) |
| `CommentList.TopLevel` | components/comments/comment-list.tsx:38 | an order-preserving sublist holding exactly the comments without a (truthy) `parentId` |
| `CommentList.IsAuthor` | components/comments/comment-list.tsx:99 | the viewer is signed in and wrote the comment |
| `CommentList.MenuItems` | components/comments/comment-list.tsx:118-143 | Edit and Delete for the author, then Report for a paying viewer who is not the author |
| `CommentList.ReplyShown` | components/comments/comment-list.tsx:179 | the Reply button is drawn for a signed-in viewer unless that comment is being edited |
| `CommentList.BucketIsFilter` | components/comments/comment-list.tsx:42-50 | a parent's replies are the comments replying to it, in input order |
| `CommentList.BucketOfReplies` | components/comments/comment-list.tsx:42-43 | filtering the replies first does not change any parent's replies |
| `CommentList.BucketEmptyIff` | components/comments/comment-list.tsx:101 | a parent's list is empty exactly when no comment replies to it |
| `CommentList.BucketNonEmptyIff` | components/comments/comment-list.tsx:101 | a parent's list has something in it exactly when some comment replies to it |
| `CommentList.GroupMapGroups` | components/comments/comment-list.tsx:41-51 | visiting the replies one by one groups each under its parent, in order, with each parent key created once |
| `CommentList.GroupReplies` | components/comments/comment-list.tsx:41-51 | `repliesByParent` has a key exactly for each comment that has replies, holding its replies in input order; the keys are created once each |
| `CommentList.GroupedReplies` | components/comments/comment-list.tsx:41-51 | the dictionary built over the filtered replies is the grouping of all comments by parent |
| `CommentList.BucketSizesCountReplies` | components/comments/comment-list.tsx:41-51 | with every parent listed once, the buckets together hold each reply exactly once |
| `CommentList.ThreadCountsEveryComment` | components/comments/comment-list.tsx:38-51 | the top-level count plus the sizes of all buckets is the number of comments |
| `CommentList.ThreadPlacesEveryComment` | components/comments/comment-list.tsx:38-51 | every comment is top-level or in exactly the bucket of its parent, never both |
| `CommentList.MenuShown` | components/comments/comment-list.tsx:118 | the menu button appears exactly when it has entries: for the author or a paying viewer |
| `CommentList.MenuRules` | components/comments/comment-list.tsx:118-143 | Edit and Delete exactly for the author; Report exactly for a paying non-author; nothing when signed out (also line 99) |
| `CommentList.MenuEffect` | components/comments/comment-list.tsx:128-141 | only Edit fires no callback; Delete and Report both request deleting the comment |
| `CommentList.ToggledReplies` | components/comments/comment-list.tsx:81-86 | `toggleReplies(id)` flips only `id`'s flag, a missing entry reading as false |
| `CommentList.ToggleRepliesTwice` | components/comments/comment-list.tsx:81-86 | toggling twice reads the same as not toggling |
| `CommentList.ReplyPressed` | components/comments/comment-list.tsx:181 | Reply on the comment being replied to closes the box; on any other comment it opens there |
| `CommentList.CommentBox.constructor` | components/comments/comment-list.tsx:30-35 | every draft empty, no reply or edit open, nothing expanded |
| `CommentList.CommentBox.HandleSubmitComment` | components/comments/comment-list.tsx:53-58 | a blank comment fires nothing and keeps the draft; otherwise it adds the untrimmed text to the project and clears the draft |
| `CommentList.CommentBox.HandleSubmitReply` | components/comments/comment-list.tsx:60-66 | a blank reply fires nothing and keeps the box; otherwise it adds the reply under the parent, clears the draft and closes the box |
| `CommentList.CommentBox.HandleSubmitEdit` | components/comments/comment-list.tsx:68-74 | a blank edit fires nothing and keeps the editor; otherwise it sends the new text, clears it and closes the editor |
| `CommentList.CommentBox.HandleStartEditing` | components/comments/comment-list.tsx:76-79 | Edit opens the editor on the comment with its current text |
| `CommentList.CommentBox.ToggleReplies` | components/comments/comment-list.tsx:81-86 | the expansion record becomes the toggled one |
| `CommentList.CommentBox.PressReply` | components/comments/comment-list.tsx:181 | the reply box moves as the Reply button says |
| `CommentList.CommentBox.CancelReply` | components/comments/comment-list.tsx:208 | Cancel closes the reply box |
| `CommentList.CommentBox.CancelEdit` | components/comments/comment-list.tsx:157 | Cancel closes the editor |
| `RealTimeAi.StepsDistinct` | components/ai-integration/real-time-ai.tsx:62-70 | the seven step captions are distinct |
| `RealTimeAi.Excerpt` | components/ai-integration/real-time-ai.tsx:126 | a prompt of at most 150 characters is quoted whole; a longer one as its first 150 characters and "...", 153 in all |
| `RealTimeAi.ExcerptKeepsOpening` | components/ai-integration/real-time-ai.tsx:126 | the excerpt starts with the prompt's first (up to) 150 characters and is at most 153 long |
| `RealTimeAi.GenerationFor` | components/ai-integration/real-time-ai.tsx:98-126 | the delivered code names the model and the prompt in its header, the model's credits, and the prompt excerpt |
| `RealTimeAi.Schedule` | components/ai-integration/real-time-ai.tsx:90 | nothing is scheduled exactly when the prompt is blank; otherwise the generation for that prompt and model (also line 98) |
| `RealTimeAi.IndexOf` | components/ai-integration/real-time-ai.tsx:267 | `indexOf` is -1 exactly for an absent value, otherwise the first index holding it |
| `RealTimeAi.StepLookOf` | components/ai-integration/real-time-ai.tsx:264-278 | a caption is active when it is the current one, done when it comes earlier by `indexOf`, pending otherwise |
| `RealTimeAi.GenerateDisabled` | components/ai-integration/real-time-ai.tsx:297 | the Generate button is disabled exactly while the prompt is blank after trimming |
| `RealTimeAi.StepLooks` | components/ai-integration/real-time-ai.tsx:264-278 | with the seven captions, a step is done before the current one, active at it and pending after it |
| `RealTimeAi.NothingDoneBeforeStart` | components/ai-integration/real-time-ai.tsx:264-278 | while the current caption is still empty, every step is drawn pending (also line 30) |
| `RealTimeAi.Generator.constructor` | components/ai-integration/real-time-ai.tsx:27-30 | not generating, progress 0, no captions, no timers |
| `RealTimeAi.Generator.StartTimers` | components/ai-integration/real-time-ai.tsx:59-77 | turning generation on starts both timers and shows the first caption (also lines 34-37) |
| `RealTimeAi.Generator.GenerateCode` | components/ai-integration/real-time-ai.tsx:89-98 | a blank prompt changes nothing; otherwise generation is on with progress 0, and a run that was off starts both timers at the first caption; progress stays in 0..100 |
| `RealTimeAi.Generator.ProgressTick` | components/ai-integration/real-time-ai.tsx:37-45 | below 100 progress grows by one; at 100 it stays and the timer stops; it never decreases and stays in 0..100; the tick that reaches 100 schedules one completion (also lines 50-52) |
| `RealTimeAi.Generator.StepTick` | components/ai-integration/real-time-ai.tsx:77-84 | the local index grows by one; the caption follows it while it is in range, and after the last step the caption stays and the timer stops |
| `RealTimeAi.Generator.CompletionTimeout` | components/ai-integration/real-time-ai.tsx:50-56 | fires only as a timeout that progress reaching 100 scheduled; the run ends, both timers are cleared (also line 86) and that timeout is used up |
| `GeneratePage.StepLookOf` | app/generate/page.tsx:105-115 | step i is done exactly when i is below the current step, active exactly at it, pending exactly above it |
| `GeneratePage.OneActiveStep` | app/generate/page.tsx:106-117 | exactly one step is active, and the dark captions are exactly the done and active ones |
| `GeneratePage.PercentComplete` | app/generate/page.tsx:97 | the percentage is `(step + 1) / 7 * 100` rounded half up |
| `GeneratePage.PercentBounds` | app/generate/page.tsx:97 | the percentage never decreases along the steps and reads 100 exactly at the last step |
| `GeneratePage.Page.constructor` | app/generate/page.tsx:21-26 | the page mounts at step 0, incomplete, with the timer running and a desktop preview |
| `GeneratePage.Page.Tick` | app/generate/page.tsx:26-36 | below the last step a tick advances by one; at the last step it sets `isComplete` and stops the timer; the step stays in range and completion never reverts |
| `GeneratePage.Page.SpinnerCaption` | app/generate/page.tsx:182 | the spinner shows the current step's caption, which is always in range |
| `GeneratePage.Page.SetPreviewMode` | app/generate/page.tsx:145-161 | the device buttons set the preview mode |
| `GeneratePage.Page.FrameWidth` | app/generate/page.tsx:41-50 | the frame is as wide as the mode's preview width (also line 170) |
| `GeneratePage.Page.PreviewShown` | app/generate/page.tsx:171 | the preview frame replaces the spinner exactly once the build is complete |
| `Preview.PreviewWidth` | components/playground/playground-interface.tsx:389-398 | "375px" exactly for mobile, "768px" exactly for tablet, "100%" exactly for desktop (the same switch is in the IDE and the generate page) |
| `Preview.PreviewWidthInjective` | components/ide/ai-ide.tsx:390-399 | the width tells the mode back |
| `Types.NotificationNamesDistinct` | types/user.ts:79 | the five notification types have distinct names, so a type tab names at most one type |
| `Types.ResultNamesDistinct` | types/user.ts:89 | the three result types have distinct names |
| `Text.TrimStart` | components/comments/comment-list.tsx:54 | `trim` drops exactly the leading whitespace: a suffix that does not start with whitespace |
| `Text.TrimEnd` | components/comments/comment-list.tsx:54 | `trim` drops exactly the trailing whitespace: a prefix that does not end with whitespace |
| `Text.Trim` | components/comments/comment-list.tsx:54 | `trim()` is the trailing trim of the leading trim |
| `Text.BlankIffAllSpace` | components/comments/comment-list.tsx:54 | `!s.trim()` holds exactly when every character is whitespace |
| `Text.TrimShape` | components/profile/remix-dialog.tsx:40-41 | a trimmed string is no longer than the input and neither starts nor ends with whitespace |
| `Text.TrimIdempotent` | components/profile/remix-dialog.tsx:40-41 | trimming twice is trimming once |
| `Text.Lower` | components/profile/user-projects.tsx:40-41 | `toLowerCase` keeps the length and folds each character |
| `Text.LowerIdempotent` | components/profile/user-projects.tsx:40-41 | lower-casing twice is lower-casing once |
| `Text.Includes` | components/profile/user-projects.tsx:40-41 | `includes`: the needle is a prefix of the haystack or of one of its suffixes |
| `Text.IncludesIffOccurs` | components/profile/user-projects.tsx:40-41 | `includes` holds exactly when the needle occurs at some index |
| `Text.IncludesEmpty` | components/profile/user-projects.tsx:40-41 | the empty query is found in every string |
| `Text.DigitsOnly` | components/payment/credit-purchase.tsx:167 | `replace(/\D/g, "")` leaves only digits, is no longer than the input and leaves an all-digit string alone |
| `Text.DigitsOnlyIdempotent` | components/payment/credit-purchase.tsx:167 | stripping non-digits twice is stripping once |
| `Text.Substring` | components/payment/credit-purchase.tsx:167 | `substring(a, b)` clamps both ends to the length and swaps them when reversed (also line 192) |
| `Text.SubstringFromStart` | components/ai-integration/real-time-ai.tsx:126 | `substring(0, n)` is the prefix of length min(n, length) |
| `Text.NatToString` | components/notifications/notification-center.tsx:82 | the decimal rendering is non-empty, all digits, and has no leading zero except for 0 itself |
| `Text.NatToStringRoundTrip` | components/profile/project-card.tsx:183 | reading a rendered number back gives the number |
| `Text.NatToStringInjective` | components/notifications/notification-center.tsx:82 | different numbers render differently |
| `Text.IntToString` | components/social/follow-system.tsx:59 | an integer renders with a leading minus exactly when negative |
| `Text.LexTotal` | components/profile/community-projects.tsx:22 | the default `sort()` order on strings is irreflexive and total |
| `Text.LexTrans` | components/profile/community-projects.tsx:22 | the default `sort()` order on strings is transitive |
| `Text.FirstOccurrence` | components/playground/playground-interface.tsx:410 | the index where `replace` with a string pattern substitutes: the first occurrence, or none when the pattern does not occur |
| `Text.DollarFreeConcat` | components/playground/playground-interface.tsx:410 | a concatenation has no `$` exactly when neither part has one |
| `Text.Substitution` | components/playground/playground-interface.tsx:410 | a replacement text without `$` is inserted as it is (also line 414) |
| `Text.ReplaceFirst` | components/playground/playground-interface.tsx:410 | `replace` with a string pattern returns the input when the pattern does not occur, and otherwise substitutes the expanded replacement for the first occurrence only (also line 414) |
| `Text.ReplaceFirstPlain` | components/playground/playground-interface.tsx:410 | a `$`-free replacement takes the place of the first occurrence and nothing else changes (also line 414) |
| `Text.ReplaceByMatchIsIdentity` | components/playground/playground-interface.tsx:410 | `$&` expands to the match, so replacing by it changes nothing |
| `Text.MatchSubstitution` | components/playground/playground-interface.tsx:410 | `$&` stands for the matched text |
| `Lists.Filter` | components/notifications/notification-center.tsx:29 | `filter` returns an order-preserving sublist holding exactly the elements that pass |
| `Lists.FilterMultiset` | components/profile/user-projects.tsx:37-50 | each passing element is kept as often as it occurs, each failing one never |
| `Lists.FilterAll` | components/payment/billing-history.tsx:67-71 | a filter every element passes changes nothing |
| `Lists.FilterSplit` | components/profile/user-projects.tsx:66-67 | a filter and its negation together keep every element once |
| `Lists.FilterNested` | components/comments/comment-list.tsx:42-43 | filtering by a finer test after a coarser one is filtering by the finer test |
| `Lists.MapWhere` | components/profile/user-profile-page.tsx:129 | `map` with a conditional rewrite changes exactly the selected elements, in place |
| `Lists.SumAppend` | components/profile/user-profile-page.tsx:116-117 | `reduce` with `+` over a concatenation is the sum of the two sums |
| `Lists.FirstIndex` | components/versioning/version-history.tsx:230 | the first index whose element passes the test, or none exactly when no element passes |
| `Lists.Find` | components/playground/playground-interface.tsx:401-403 | `find` returns the first element that passes, or `undefined` exactly when none does |
| `Lists.FindAt` | components/ide/ai-ide.tsx:323 | the element at the first passing index is what `find` returns |
| `Lists.SumPointwise` | components/profile/user-profile-page.tsx:116 | sums of equal weights, element by element, are equal |
| `Lists.FilterCountPointwise` | components/profile/user-profile-page.tsx:118 | filters that pass at the same positions keep as many elements |
| `Sorting.SortAsc` | components/profile/user-projects.tsx:55-56 | the stable sort by a key is a permutation in ascending key order |
| `Sorting.Insert` | components/profile/user-projects.tsx:55-56 | inserting into a sorted list keeps it sorted, adds exactly that element, and puts it first or keeps the old head |
| `Sorting.SortDesc` | components/profile/user-projects.tsx:53-54 | the sort by a descending comparator is a permutation in descending key order |
| `Sorting.SortAscFixed` | components/profile/user-projects.tsx:51-64 | a list already in order is left as it is: the sort is stable |
| `Sorting.SortDescFixed` | components/social/activity-feed.tsx:21-32 | a list already in descending order is left as it is |
| `Sorting.SortConstantKey` | components/profile/user-projects.tsx:61-62 | a comparator that answers 0 for every pair keeps the input order |
| `Sorting.PrefixDominates` | components/profile/community-projects.tsx:42 | after a descending sort, nothing behind a cut ranks above anything before it |
| `Sorting.Top` | components/profile/community-projects.tsx:35-42 | `sort` then `slice(0, n)` keeps min(n, length) elements of the input, in descending order, and no element left out ranks above one taken |
| `UserProfilePage.Stats` | components/profile/user-profile-page.tsx:115-119 | the remix counter never exceeds the number of projects; the view and like totals are the sums over the projects (see `LikeMovesTotal`, `RemixStats`) |
| `UserProfilePage.LikedEffect` | components/profile/user-profile-page.tsx:178-182 | a like flips `isLiked` and moves `likes` by −1 when it was liked, +1 otherwise, and changes nothing else |
| `UserProfilePage.LikedTwice` | components/profile/user-profile-page.tsx:178-182 | liking twice restores the like count, and the whole project once `isLiked` has been set |
| `UserProfilePage.ToggleLike` | components/profile/user-profile-page.tsx:174-186 | `handleLike` keeps the length and rewrites exactly the projects with the id, each as one like press |
| `UserProfilePage.WithVisibility` | components/profile/user-profile-page.tsx:128-130 | `handleVisibilityChange` keeps the length and sets the visibility of exactly the projects with the id |
| `UserProfilePage.Without` | components/profile/user-profile-page.tsx:188-190 | `handleDelete` returns an order-preserving sublist with no project of that id and every other project |
| `UserProfilePage.LikeKeepsOthers` | components/profile/user-profile-page.tsx:174-186 | a like keeps the length, the order, every id and every project with another id |
| `UserProfilePage.LikeTwice` | components/profile/user-profile-page.tsx:174-186 | liking the same id twice restores every like count, and the whole list when every `isLiked` was set |
| `UserProfilePage.LikeMovesTotal` | components/profile/user-profile-page.tsx:174-186 | on a project that occurs once, a like moves the like total by one in its direction and keeps the view and remix totals (also lines 115-119) |
| `UserProfilePage.LikesMove` | components/profile/user-profile-page.tsx:117 | the sum of likes moves by exactly the liked project's change (also line 180) |
| `UserProfilePage.VisibilityIdempotent` | components/profile/user-profile-page.tsx:128-130 | setting a visibility twice is setting it once |
| `UserProfilePage.VisibilityUndo` | components/profile/user-profile-page.tsx:128-130 | setting back the visibility all matching projects had restores the list |
| `UserProfilePage.DeleteEffect` | components/profile/user-profile-page.tsx:188-190 | survivors keep their multiplicity, deleting twice is deleting once, and deleting an unknown id changes nothing |
| `UserProfilePage.RemixUnknown` | components/profile/user-profile-page.tsx:142-144 | a remix of an id found in neither list leaves the projects unchanged |
| `UserProfilePage.RemixKnown` | components/profile/user-profile-page.tsx:142-168 | a remix of a known project prepends exactly one project: zero likes and views, public, the requested title and description, the owner as author, the original's code, prompt, model and tags, and a credit naming the original; the earlier projects follow unchanged |
| `UserProfilePage.RemixStats` | components/profile/user-profile-page.tsx:146-168 | a successful remix adds one to the remix counter and nothing to views or likes (also lines 115-119) |
| `UserProfilePage.ProfilePage.constructor` | components/profile/user-profile-page.tsx:109-113 | the page holds the given owner and lists, with no remix dialog open |
| `UserProfilePage.ProfilePage.CurrentStats` | components/profile/user-profile-page.tsx:115-119 | the counters are those of the current projects |
| `UserProfilePage.ProfilePage.HandleVisibilityChange` | components/profile/user-profile-page.tsx:128-130 | the project list becomes its visibility change |
| `UserProfilePage.ProfilePage.HandleRemix` | components/profile/user-profile-page.tsx:132-135 | the remix dialog opens on the project |
| `UserProfilePage.ProfilePage.HandleRemixConfirm` | components/profile/user-profile-page.tsx:137-172 | the project list becomes the remix result |
| `UserProfilePage.ProfilePage.HandleLike` | components/profile/user-profile-page.tsx:174-186 | the project list becomes its like toggle |
| `UserProfilePage.ProfilePage.HandleDelete` | components/profile/user-profile-page.tsx:188-190 | the project list loses the projects with the id |
| `ProjectCard.HandleVisibilityToggle` | components/profile/project-card.tsx:54-59 | fires nothing exactly when the card has no visibility callback; otherwise reports this project's id with the opposite visibility |
| `ProjectCard.ToggleTwiceRestores` | components/profile/project-card.tsx:54-59 | toggling the visibility twice gives back the original visibility |
| `ProjectCard.ToggleCaption` | components/profile/project-card.tsx:120-130 | the menu caption names the visibility the toggle would switch to |
| `ProjectCard.VisibilityBadge` | components/profile/project-card.tsx:82-92 | the badge reads "Private" exactly for private projects and "Public" exactly for public ones |
| `ProjectCard.Menu` | components/profile/project-card.tsx:104-140 | Preview always comes first; Remix appears iff the viewer is not the owner and a remix handler exists; the visibility item iff owner with a visibility handler, with the toggle's caption; Delete iff owner with a delete handler |
| `ProjectCard.RemixExcludesOwnerControls` | components/profile/project-card.tsx:112-140 | no menu offers Remix together with Delete or the visibility toggle |
| `ProjectCard.Select` | components/profile/project-card.tsx:112-140 | only Preview fires no event; Remix hands over the whole project, Delete the project id, the visibility item the toggle's event |
| `ProjectCard.PressLike` | components/profile/project-card.tsx:205 | the heart reports a like of this project exactly when a like handler is given |
| `ProjectCard.Tags` | components/profile/project-card.tsx:174-185 | no tag row for no tags; otherwise the first three tags shown, and a "+n" badge exactly when there are more than three, with n the number hidden |
| `ProjectCard.TagsAccountForAll` | components/profile/project-card.tsx:176-184 | shown tags plus the number read back from the "+n" badge equal the tag count, and the shown tags are the leading ones in order |
| `ProjectCard.RemixCreditLine` | components/profile/project-card.tsx:165-170 | a credit line exists exactly for remixed projects and names the original's title and author (also lines 189-194) |
| `ProjectCard.Initial` | components/profile/project-card.tsx:218 | the avatar fallback is at most one character and is a prefix of the username (empty for an empty username) |
| `RemixDialog.TitlePlaceholder` | components/profile/remix-dialog.tsx:95 | the placeholder is the original title followed by " (Remix)" |
| `RemixDialog.CreateDisabled` | components/profile/remix-dialog.tsx:134 | Create Remix is disabled exactly while the title is blank after trimming |
| `RemixDialog.Submission` | components/profile/remix-dialog.tsx:36-43 | nothing is sent exactly when there is no project or the title is blank after trimming; otherwise the trimmed title and description with the original's id |
| `RemixDialog.SentTitleIsClean` | components/profile/remix-dialog.tsx:37-40 | a sent title is non-empty, not blank and already trimmed, and so is the description |
| `RemixDialog.Form.constructor` | components/profile/remix-dialog.tsx:33-34 | the form opens with an empty title and description |
| `RemixDialog.Form.SetTitle` | components/profile/remix-dialog.tsx:97 | typing replaces the title field |
| `RemixDialog.Form.SetDescription` | components/profile/remix-dialog.tsx:107 | typing replaces the description field |
| `RemixDialog.Form.Reset` | components/profile/remix-dialog.tsx:46-47 | both fields are cleared |
| `RemixDialog.Form.HandleRemix` | components/profile/remix-dialog.tsx:36-49 | sends the submission computed from the fields as they were; on a send the dialog closes and the fields clear, otherwise nothing changes and the dialog stays open |
| `ProjectHistory.TruncatePrompt` | components/project-history.tsx:39-41 | prompts up to the limit (100 by default) are kept whole; longer ones become their first `maxLength` characters plus "..." |
| `ProjectHistory.TruncateProperties` | components/project-history.tsx:40 | truncation keeps the prefix up to the limit, never yields more than limit + 3 characters, and is injective on prompts within the limit |
| `ProjectHistory.EmptyText` | components/project-history.tsx:58-63 | the "No project history yet" notice shows exactly when the history is empty |
| `ProjectHistory.OnlyLastHasNoSeparator` | components/project-history.tsx:106 | every entry but the last is followed by a separator |
| `ProjectHistory.Sheet.constructor` | components/project-history.tsx:27 | the sheet starts closed |
| `ProjectHistory.Sheet.SetOpen` | components/project-history.tsx:44 | opening or closing the sheet sets its flag |
| `ProjectHistory.Sheet.PressRestore` | components/project-history.tsx:83-86 | Restore hands back the whole entry and closes the sheet |
| `ProjectHistory.Sheet.PressDelete` | components/project-history.tsx:101 | Delete hands back the entry's id and leaves the sheet as it is |
| `SettingsPanel.Apply` | components/settings-panel.tsx:30-34 | an update sets exactly its own key and leaves the other four settings unchanged |
| `SettingsPanel.ApplyLaws` | components/settings-panel.tsx:30-34 | after an update its key holds the new value; an update is a no-op iff the value was already there; a later update of the same key overrides an earlier one, and updates of different keys commute |
| `SettingsPanel.IndentValues` | components/settings-panel.tsx:68-75 | the indent slider (2 to 8 in steps of 2) offers exactly 2, 4, 6 and 8 |
| `SettingsPanel.ControlsKeepRange` | components/settings-panel.tsx:57-110 | any value a control can produce keeps font size in 12..24 and indent in the slider's values |
| `SettingsPanel.Panel.constructor` | components/settings-panel.tsx:28 | the local copy starts as the settings passed in |
| `SettingsPanel.Panel.UpdateSetting` | components/settings-panel.tsx:30-34 | the local copy becomes the updated settings, and exactly that copy is reported to the parent |
| `FileStatus.StatusIcon` | components/file-status.tsx:18-24 | a spinner exactly while generating, a check exactly when completed, a plain circle otherwise |
| `FileStatus.StatusLabel` | components/file-status.tsx:27-33 | "Pending", "Generating...", "Generated" and "Error" for the four states |
| `FileStatus.StatusLabelInjective` | components/file-status.tsx:27-33 | different states get different labels |
| `FileStatus.RowOf` | components/file-status.tsx:17-33 | a row shows the state's icon, green exactly when completed, and "name: label" |
| `FileStatus.FileStatusList` | components/file-status.tsx:16 | one row per file, in order |
| `FileStatus.RowDeterminesStatus` | components/file-status.tsx:18-33 | the rendered row tells the file's state back |
| `Console.NewMessage` | components/playground/playground-interface.tsx:379-387 | the message keeps its kind and text, is stamped with the time, and its id is the decimal time in milliseconds |
| `Console.KindTag` | components/playground/playground-interface.tsx:608 | the tag is the kind's name in brackets |
| `Console.KindTagNamesKind` | components/ide/ai-ide.tsx:624 | lower-casing the bracketed tag gives the kind's name back |
| `Console.SameMillisecondSameId` | components/playground/playground-interface.tsx:381 | two messages made in the same millisecond share an id, so ids are not unique |
| `Playground.WithContent` | components/playground/playground-interface.tsx:365-367 | the file with the given id gets the new content; every other file, and the order and number of files, stay as they were |
| `Playground.WithContentProperties` | components/playground/playground-interface.tsx:365-367 | an unknown id changes nothing; a second edit of the same file overrides the first; ids, names and languages never change |
| `Playground.WithStyles` | components/playground/playground-interface.tsx:409-411 | without a css file the page is untouched; with one, the first stylesheet link is replaced by an inline style block (JavaScript `String.replace` semantics, substitution patterns included) |
| `Playground.WithScript` | components/playground/playground-interface.tsx:413-415 | without a javascript file the page is untouched; with one, the first script tag is replaced by an inline script block |
| `Playground.PreviewHtml` | components/playground/playground-interface.tsx:400-418 | empty without an html file; otherwise the first html file's content with the first css file, then the first javascript file, inlined |
| `Playground.PreviewUntouched` | components/playground/playground-interface.tsx:405-417 | with no css or javascript file, or no placeholder for them, the preview is the html file as it is |
| `Playground.StylesInlined` | components/playground/playground-interface.tsx:409-411 | a stylesheet without `$` lands exactly at the first link, with the page text around it unchanged |
| `Playground.Workspace.constructor` | components/playground/playground-interface.tsx:345-362 | the playground opens on index.html, not running, desktop preview shown, with the two greeting console lines |
| `Playground.Workspace.UpdateFile` | components/playground/playground-interface.tsx:365-367 | the file list becomes the edited list and nothing else changes |
| `Playground.Workspace.AddConsoleMessage` | components/playground/playground-interface.tsx:379-387 | exactly one new message is appended after the existing ones |
| `Playground.Workspace.RunCode` | components/playground/playground-interface.tsx:369-372 | the run starts and "Running code..." is logged as info |
| `Playground.Workspace.RunFinished` | components/playground/playground-interface.tsx:373-376 | after the delay "Code executed successfully" is logged and the run ends |
| `Playground.Workspace.ClearConsole` | components/playground/playground-interface.tsx:587 | the console becomes empty |
| `Playground.Workspace.TogglePreview` | components/playground/playground-interface.tsx:461 | the preview pane flips between shown and hidden |
| `Playground.Workspace.SetPreviewMode` | components/playground/playground-interface.tsx:478-486 | the chosen device mode is set |
| `Playground.Workspace.SetActiveFile` | components/playground/playground-interface.tsx:516 | the clicked file becomes the active one |
| `Playground.Workspace.PreviewDocument` | components/playground/playground-interface.tsx:573-574 | the frame renders the assembled page at the width of the current mode |
| `AiIde.Edited` | components/ide/ai-ide.tsx:325-327 | the file of the active tab gets the new content and a modified mark; all other files stay as they were, in order |
| `AiIde.EditedProperties` | components/ide/ai-ide.tsx:325-327 | ids never change; a file is modified afterwards iff it was before or it is the edited tab; an unknown tab changes nothing |
| `AiIde.ActiveFile` | components/ide/ai-ide.tsx:323 | none exactly when no file has the active tab's id; otherwise a file of the list with that id |
| `AiIde.EditShown` | components/ide/ai-ide.tsx:325-327 | after an edit, the active file shows the new text and is marked modified (also line 323) |
| `AiIde.GeneratedCode` | components/ide/ai-ide.tsx:363-381 | the generated component embeds the prompt verbatim after the fixed header, and its length is fixed by the prompt's |
| `AiIde.GeneratedCodeInjective` | components/ide/ai-ide.tsx:363-381 | different prompts give different components |
| `AiIde.CompletedAsWritten` | components/ide/ai-ide.tsx:383-386 | as written, the timeout rebuilds the list from the press-time snapshot: every other tab gets its press-time version back, whatever happened since |
| `AiIde.StaleSnapshotLosesEdit` | components/ide/ai-ide.tsx:383-386 | an edit of a second tab during the wait is lost, and its modified mark with it |
| `AiIde.Completed` | components/ide/ai-ide.tsx:383-386 | corrected: the generated code goes into the press-time tab of the current list, and other tabs keep their current state |
| `AiIde.CompletedKeepsEdits` | components/ide/ai-ide.tsx:383-386 | the corrected timeout never clears a modified mark, keeps every id, and agrees with the code as written when nothing changed during the wait |
| `AiIde.RunButton` | components/ide/ai-ide.tsx:420-423 | the button does nothing while generating; otherwise it stops a running program and runs a stopped one |
| `AiIde.GenerateDisabled` | components/ide/ai-ide.tsx:501 | the Generate button is disabled for a blank prompt or while a generation runs (Enter in the prompt box is not blocked) |
| `AiIde.Ide.constructor` | components/ide/ai-ide.tsx:52-70 | the IDE opens on component.tsx, not running, not generating, with an empty prompt, desktop preview and the two greeting console lines |
| `AiIde.Ide.UpdateFileContent` | components/ide/ai-ide.tsx:325-327 | the file list becomes the edit of the active tab |
| `AiIde.Ide.AddConsoleMessage` | components/ide/ai-ide.tsx:345-353 | exactly one new message is appended after the existing ones |
| `AiIde.Ide.RunCode` | components/ide/ai-ide.tsx:329-332 | the run starts and "Starting code execution..." is logged as info |
| `AiIde.Ide.RunFinished` | components/ide/ai-ide.tsx:333-337 | after the delay the compile and running lines are logged, in that order, and the run ends |
| `AiIde.Ide.StopCode` | components/ide/ai-ide.tsx:340-343 | the run ends and "Execution stopped" is logged as a warning |
| `AiIde.Ide.PressRunButton` | components/ide/ai-ide.tsx:420-423 | a disabled press changes nothing; otherwise it flips the running state and logs the stop or start line accordingly |
| `AiIde.Ide.GenerateWithAi` | components/ide/ai-ide.tsx:355-362 | a blank prompt does nothing; otherwise generation starts, the prompt is logged, and the pending answer captures the press-time files, tab and prompt |
| `AiIde.Ide.GenerationFinished` | components/ide/ai-ide.tsx:383-387 | the files become the corrected completion, the success line is logged, generation ends and the prompt is cleared |
| `AiIde.Ide.SetPrompt` | components/ide/ai-ide.tsx:497 | typing replaces the prompt |
| `AiIde.Ide.SetActiveTab` | components/ide/ai-ide.tsx:531 | the clicked tab becomes active |
| `AiIde.Ide.SetPreviewMode` | components/ide/ai-ide.tsx:463-471 | the chosen device mode is set |
| `AiIde.Ide.ClearConsole` | components/ide/ai-ide.tsx:603 | the console becomes empty |

## Left out

- Timers (`setTimeout`, `setInterval`) and `async`/`await` are not modelled as time. Each tick or completion is a method the caller invokes, because the order of events is what the components depend on.
- The search dialog's 300 ms debounce and the backend call are not modelled. The backend's answer, or its failure, is a parameter of the step that ends the search, because that code is outside the repository.
- Absolute calendar dates are not modelled: the `Intl.DateTimeFormat`, `toLocaleString` and `toLocaleTimeString` branches of the relative formatters yield no text. Locale formatting depends on the runtime.
- `new Date()` and `Date.now()` are parameters. The model does not claim that ids are unique, because two messages in the same millisecond share one (see `Console.SameMillisecondSameId`).
- Floating-point display is not modelled. Prices and amounts are whole cents, shown as integers with two decimals. `toFixed` rounding of the price per credit is not modelled, because it is binary floating point.
- Unicode case mapping is not modelled: lowercasing covers ASCII letters only. The default string `sort()` of the tag list is modelled by `Text.LexLess`, character by character.
- The code held in template literals is string data, not logic, so it is not modelled. This covers the starter files of the playground, the IDE's starter tabs and its `utils.ts` text. The constructors of `Playground.Workspace` and `AiIde.Ide` take the initial files as a parameter.
- The Monaco editor wrappers, the export panel, the reset-password and register forms, and project sharing (clipboard, `window.open`) are thin layers over external libraries and browser APIs, so they are not modelled.
- Presentation-only pages are not modelled: the landing page, hero, the SaaS landing preview, the template gallery, chat message bubbles and the billing page shell. They have no logic beyond a setter.
- Navigation (`router.push`, `window.location`), iframes, chat auto-scrolling and DOM focus are not modelled as effects. The model returns routes and callback events as outputs, because their effects belong to the browser or to the parent component.
- CSS classes, colours other than the stated green and badge variants, icons other than the status icons, and panel sizes are not modelled, because they are appearance only.
- The collaboration panel's Invite button and the playground's AI-assistant Send button are not modelled, because neither has a handler in the source.
- Strings are sequences of Unicode scalar values, while JavaScript measures and slices UTF-16 code units. A character above U+FFFF (an emoji, say) counts once here and twice in JavaScript. Lengths, cuts and first characters therefore differ for such text in `RealTimeAi.Excerpt`, `ProjectHistory.TruncatePrompt`, `ProjectCard.Initial` (where `charAt(0)` returns half a surrogate pair), `CreditPurchase.NameValid` (one emoji passes `min(2)`), and `SearchDialog.Searchable`, `SearchDialog.Dialog.BeginSearch` and `SearchDialog.EmptyState`. `Text.LexLess` puts a character above U+FFFF after the characters U+E000 to U+FFFF, where JavaScript's code-unit order puts it before them. Surrogate pairs are not modelled, because Dafny strings cannot hold a lone surrogate.
- `CommentList.GroupReplies` builds a clean map. The source's `repliesByParent` is a plain object, so a `parentId` such as "constructor" reads a property inherited from `Object.prototype` and the `push` throws. Prototype lookup is not modelled, because it is JavaScript object machinery rather than the grouping the component means.
- `SettingsPanel.Panel.constructor` takes the settings once, as `useState(settings)` does. Later changes to the `settings` prop do not reach the local copy, and the model does not follow them either.
- `CreditTracker` handles a total of zero credits explicitly, with the comparisons JavaScript makes for `Infinity` and `NaN` percentages, instead of requiring a positive total.

## Findings

| source | as written | input that shows it | evidently intended | confidence | as-written member | corrected member |
|---|---|---|---|---|---|---|
| components/ide/ai-ide.tsx:383-386 | the generation timeout calls the `updateFileContent` of the render in which Generate was pressed; that closure maps over the file list captured then | two tabs `a` (active) and `b`; press Generate, edit `b` within the three seconds; when the timeout fires, `b` is back to its old text and loses its modified dot | write the generated code into the current file list, leaving the other tabs as they are | not executed | `AiIde.StaleSnapshotLosesEdit` (over `AiIde.CompletedAsWritten`) | `AiIde.CompletedKeepsEdits` (over `AiIde.Completed`, used by `AiIde.Ide.GenerationFinished`) |
