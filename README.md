# Feedback board core in Dafny

This project models the logic of a product-feedback web app. The app has a board of feature requests with votes, threaded comments, a roadmap and a changelog. Behind the board sit four in-memory mock services:

- **Feedback posts.** A query engine filters by category, status and a case-insensitive search, then sorts by votes, date or a "trending" score. The store also supports create, update, vote and delete.
- **Comments.** Comments are built into two-level threads of top-level comments and their direct replies.
- **Roadmap.** Roadmap items are joined to their posts and grouped into planned, in-progress and completed columns. An upsert moves a post to a stage.
- **Changelog.** Release notes are listed newest first.

On top of those sit a few component-level rules:

- image batch validation;
- the filter sidebar's toggles;
- the board's client-side vote ledger with its single-flight guard;
- the submission form's validation;
- the card's display helpers.

Each service's module-level array becomes the field of a store class (`FeedbackStore`, `CommentStore`, `RoadmapStore`, `ChangelogStore`). The component state that the modelled handlers change becomes a class as well (`Uploader`, `Board`, `Modal`). Each mutating method states the complete new state. Its meaning is carried by specification functions (`Query`, `Threads`, `BoardOf`, `Upsert`, `Listing`, `BatchOutcome`, `FormErrors`, `LedgerAfter`) and by the lemmas proved about them.

Conventions:

- **Asynchrony.** Asynchronous calls are synchronous here.
- **Parameters.** The wall clock is a `now` or `today` parameter. The HTML-to-text conversion of the description is a `stripHtml` parameter. The image encoder is an `encode` parameter that may fail.
- **Timestamps and dates.** Timestamps are integers. Estimated dates are day numbers.
- **Text.** Text functions work on ASCII: lower/upper case, and `trim` over space, tab and the line-break characters.
- **Sorting.** JavaScript's `Array.prototype.sort` is stable, so every sort is modelled by one stable insertion sort, `Lists.SortByKey`, ascending on an integer key. A descending comparator becomes the negated key.
- **Identifiers.** Ids are integers. The comment service compares references with `String(id)` under `===`, so a comment reference is a `JsId`: either `Num(n)` or the string `Str(n)` that spells n.
- **Roadmap references.** A roadmap item's `feedbackPostId` is stored as a string, so it is kept as the integer that string spells.

Where the code and its comments disagree, the model follows the code:

- `commentService.js:12` says top-level comments are newest first, but line 15 sorts them oldest first.

## Model

| member | source | states |
|---|---|---|
| Common.JsMaxPlusOne | src/services/api/feedbackService.js:89 | `Math.max(...ids) + 1` is -Infinity exactly when the store is empty; otherwise it exceeds every id |
| Common.EmptyStoreAllocatesNonIntegerId | src/services/api/commentService.js:33 | on an empty store the allocated id is -Infinity |
| Common.NextId | src/services/api/roadmapService.js:54 | the allocated id exceeds every id in use, equals `Math.max(...ids) + 1` on a non-empty store, and is 1 on an empty one |
| Lists.Filter | src/services/api/feedbackService.js:15-17 | `filter` keeps exactly the elements that pass, each as often as it occurs, and never lengthens the list |
| Lists.FilterFilter | src/services/api/feedbackService.js:14-34 | two filters in a row equal one filter with the conjunction |
| Lists.FilterConcat | src/services/api/feedbackService.js:15-34 | `filter` keeps order: filtering a concatenation concatenates the filtered parts |
| Lists.FindIndex | src/services/api/feedbackService.js:106 | `findIndex` is -1 exactly when nothing matches, and otherwise the first matching index |
| Lists.RemoveAt | src/services/api/feedbackService.js:136 | `splice(i, 1)` removes exactly element i and shifts the rest down |
| Lists.RemoveFirst | src/components/pages/FeedbackBoard.jsx:76-77 | `indexOf` + `splice` removes one copy of the value when present and changes nothing otherwise |
| Lists.RemoveFirstSplices | src/components/pages/FeedbackBoard.jsx:76-77 | the copy removed is the first one, and the elements before and after it keep their order |
| Lists.RemoveFirstAppended | src/components/pages/FeedbackBoard.jsx:73-77 | removing a value that was just pushed onto a list that lacked it gives the list back |
| Lists.SortByKey | src/services/api/feedbackService.js:48 | the sort returns a permutation of its input |
| Lists.SortByKeyMembers | src/services/api/feedbackService.js:48 | the sorted list holds exactly the elements it was given |
| Lists.SortByKeySorted | src/services/api/feedbackService.js:48 | the sorted list ascends by its key |
| Lists.SortByKeyStable | src/services/api/feedbackService.js:41-45 | elements with equal keys keep their input order (JavaScript's sort is stable) |
| Text.Lower | src/services/api/feedbackService.js:29-32 | `toLowerCase` lowers each character and keeps the length |
| Text.TrimSpec | src/components/molecules/FeedbackCard.jsx:39 | `trim` returns a slice of its input with no white space at either end, everything it drops before and after that slice is white space, and it is empty exactly when the input is blank |
| Text.TrimEmptyIffBlank | src/components/organisms/SubmitModal.jsx:38 | `!s.trim()` holds exactly for blank strings |
| FeedbackService.FilterPostsIsKeeps | src/services/api/feedbackService.js:14-34 | the three conditional filters equal one filter: category in the OR-set, status in the OR-set, and search in title or description, ANDed together |
| FeedbackService.QueryContents | src/services/api/feedbackService.js:11-37 | `getAll` keeps exactly the posts that pass the filters, with their multiplicities, and keeps store order when sortBy is absent |
| FeedbackService.QuerySorted | src/services/api/feedbackService.js:37-63 | votes and newest sort descending, oldest ascending, and trending and every other mode by `voteCount + 2*commentCount` descending |
| FeedbackService.QueryStable | src/services/api/feedbackService.js:41-62 | posts tying on the sort key stay in store order |
| FeedbackService.TrendingPrefersComments | src/services/api/feedbackService.js:42-44 | a post with 10 votes and 3 comments ranks above one with 15 votes and none |
| FeedbackService.VotedPosts | src/services/api/feedbackService.js:72-75 | `getVotedPosts` returns exactly the posts whose id is in the voted list |
| FeedbackService.IndexOfId | src/services/api/feedbackService.js:121 | the lookup finds the first post with the parsed id, or -1 when there is none |
| FeedbackService.NewPost | src/services/api/feedbackService.js:90-99 | `create` forces the id, zero counts, status "under-review", images defaulting to [] and both timestamps |
| FeedbackService.CreateKeepsIdsDistinct | src/services/api/feedbackService.js:89-100 | appending a post with the next id keeps ids distinct |
| FeedbackService.ApplyPatch | src/services/api/feedbackService.js:110-115 | `update` keeps the id, every supplied field replaces the old value and every absent one keeps it (images included), and updatedAt is set to now |
| FeedbackService.ApplyPatchLaws | src/services/api/feedbackService.js:110-115 | an empty patch only touches updatedAt, and applying a patch twice is the same as once |
| FeedbackService.VotedCount | src/services/api/feedbackService.js:125-126 | a vote moves the count by one and never below zero |
| FeedbackService.VoteRoundTrip | src/services/api/feedbackService.js:125-126 | an up-vote then a down-vote restores a count, while a down-vote at zero is absorbed |
| FeedbackService.DeleteRemovesId | src/services/api/feedbackService.js:132-136 | with distinct ids, `delete` leaves no post with that id and keeps ids distinct |
| FeedbackService.FeedbackStore.constructor | src/services/api/feedbackService.js:3 | the store starts as the seed data |
| FeedbackService.FeedbackStore.GetAll | src/services/api/feedbackService.js:8-67 | the result is `Query` of the store, holding exactly the posts that pass the filters; the store is not changed |
| FeedbackService.FeedbackStore.GetVotedPosts | src/services/api/feedbackService.js:68-76 | the posts whose id is in the voted list, in store order |
| FeedbackService.FeedbackStore.GetById | src/services/api/feedbackService.js:78-85 | the first post with the id, or not-found exactly when there is none |
| FeedbackService.FeedbackStore.Create | src/services/api/feedbackService.js:87-102 | appends exactly one new post, whose id is fresh |
| FeedbackService.FeedbackStore.Update | src/services/api/feedbackService.js:104-117 | merges the patch into the one post and changes nothing else; not-found leaves the store unchanged |
| FeedbackService.FeedbackStore.Vote | src/services/api/feedbackService.js:119-128 | changes only the target's voteCount, by the clamped vote; not-found leaves the store unchanged |
| FeedbackService.FeedbackStore.Delete | src/services/api/feedbackService.js:130-138 | removes exactly the first post with the id and returns it; not-found leaves the store unchanged |
| CommentService.Threads | src/services/api/commentService.js:17-26 | the thread list as built: one thread per top-level comment in `TopLevel` order, carrying `RepliesTo` its head; what these hold is stated by `ThreadsShape` and `ThreadsMembership` |
| CommentService.TopLevelContents | src/services/api/commentService.js:13-15 | the top-level list holds exactly the selected comments with a falsy parentId, with their multiplicities |
| CommentService.RepliesContents | src/services/api/commentService.js:18-20 | a head's replies are exactly the selected comments whose parentId is `String(head.Id)` |
| CommentService.ThreadsShape | src/services/api/commentService.js:13-26 | heads are the top-level comments ascending by createdAt; each head's replies are exactly its direct replies, ascending by createdAt |
| CommentService.ThreadsMembership | src/services/api/commentService.js:13-26 | a comment appears in the tree exactly when it is top-level or a direct reply to a top-level comment, so a reply to a reply, or to a missing comment, is dropped |
| CommentService.HeadsOfThreads | src/services/api/commentService.js:13-17 | the thread heads are exactly the selected top-level comments |
| CommentService.NewCommentAsWritten | src/services/api/commentService.js:34-39 | `create` stores the caller's postId and parentId exactly as given, with the allocated id and createdAt |
| CommentService.NumericPostIdHidesNewComment | src/components/organisms/PostDetailModal.jsx:105-119 | a comment created with a numeric postId is in no thread of its post after the reload |
| CommentService.Normalise | src/services/api/commentService.js:10 | a reference becomes its string form; a falsy parent stays absent |
| CommentService.NewComment | src/services/api/commentService.js:34-39 | the created comment has the allocated id, now as createdAt, the draft's author and text, images defaulting to [], and every reference in string form (a falsy parent stays absent) |
| CommentService.NewTopLevelCommentIsListed | src/services/api/commentService.js:10-15 | with normalised references a new top-level comment heads a thread of its post |
| CommentService.NewReplyIsListed | src/services/api/commentService.js:17-20 | with normalised references a new reply to a top-level comment is listed under it |
| CommentService.IndexOfId | src/services/api/commentService.js:60 | the lookup finds the first comment with the parsed id, or -1 when there is none |
| CommentService.ApplyPatch | src/services/api/commentService.js:64-68 | `update` keeps the id and references; a supplied authorName, content, images or createdAt replaces the old value and an absent one keeps it |
| CommentService.CommentStore.constructor | src/services/api/commentService.js:3 | the store starts as the seed data |
| CommentService.CommentStore.GetByPostId | src/services/api/commentService.js:8-29 | the threads of the post's comments; the heads are exactly its top-level comments |
| CommentService.CommentStore.GetByRoadmapItemId | src/services/api/commentService.js:82-103 | the same shape, selected on roadmapItemId |
| CommentService.CommentStore.GetAll | src/services/api/commentService.js:44-47 | every comment in store order |
| CommentService.CommentStore.GetById | src/services/api/commentService.js:49-56 | the first comment with the id, or not-found exactly when there is none |
| CommentService.CommentStore.Create | src/services/api/commentService.js:31-42 | appends exactly one comment with a fresh id, holding the corrected record of `NewComment` (see Findings) |
| CommentService.CommentStore.Update | src/services/api/commentService.js:58-70 | merges the patch into the one comment; not-found changes nothing |
| CommentService.CommentStore.Delete | src/services/api/commentService.js:72-80 | removes exactly the one comment and returns it; not-found changes nothing |
| RoadmapService.Lookup | src/services/api/roadmapService.js:15-23 | the join fails exactly when no post has the item's feedbackPostId; otherwise it pairs the item with that post |
| RoadmapService.Join | src/services/api/roadmapService.js:13-28 | the joined list holds exactly the items whose lookup succeeds, each paired with its post |
| RoadmapService.JoinKeepsJoinable | src/services/api/roadmapService.js:13-28 | an item is dropped exactly when its post is missing, and no other item is affected |
| RoadmapService.ColumnContents | src/services/api/roadmapService.js:30-40 | each column holds exactly the joined items of its stage, with their multiplicities |
| RoadmapService.GroupOrdered | src/services/api/roadmapService.js:31-39 | planned and in-progress ascend by position; completed descends |
| RoadmapService.GroupStable | src/services/api/roadmapService.js:31-39 | items of equal position keep their store order in every column |
| RoadmapService.BoardMembership | src/services/api/roadmapService.js:9-43 | an item is on the board exactly when its post exists and its stage is one of the three |
| RoadmapService.EstimatedDateOrder | src/services/api/roadmapService.js:87-99 | only the three stages get a date, never in the past, and completed < in-progress < planned |
| RoadmapService.IndexOfItem | src/services/api/roadmapService.js:78 | the lookup finds the first item with the parsed id, or -1 when there is none |
| RoadmapService.IndexOfPost | src/services/api/roadmapService.js:48-50 | the lookup finds the first item whose feedbackPostId matches, or -1 when there is none |
| RoadmapService.UpsertEffect | src/services/api/roadmapService.js:48-73 | every other item is unchanged; the post's item (existing, or new with a fresh id) has the new stage, position and date |
| RoadmapService.UpsertCount | src/services/api/roadmapService.js:48-74 | after the upsert the post has max(1, before) items |
| RoadmapService.UpsertIdempotentInCount | src/services/api/roadmapService.js:45-74 | upserting the same post twice leaves as many items for it as upserting once |
| RoadmapService.UpsertKeepsOneItemPerPost | src/services/api/roadmapService.js:48-73 | at most one item per post is preserved |
| RoadmapService.RoadmapStore.constructor | src/services/api/roadmapService.js:4 | the store starts as the seed data |
| RoadmapService.RoadmapStore.GetAll | src/services/api/roadmapService.js:9-43 | the board of the joinable items; the call never fails |
| RoadmapService.RoadmapStore.UpdateStage | src/services/api/roadmapService.js:45-74 | the store becomes the upsert, the returned item carries the new stage, position and date, and newPosition defaults to 1 |
| RoadmapService.RoadmapStore.UpdatePosition | src/services/api/roadmapService.js:76-85 | sets one item's position; not-found changes nothing |
| RoadmapService.RoadmapStore.GetById | src/services/api/roadmapService.js:101-115 | not-found for a missing id; an associated-post error exactly when the item exists but its post does not; otherwise the joined item |
| RoadmapService.RoadmapStore.Delete | src/services/api/roadmapService.js:117-125 | removes exactly the one item and returns it; not-found changes nothing |
| ChangelogService.ListingOrdered | src/services/api/changelogService.js:11-13 | the listing is a permutation of the store, newest first, and ties keep store order |
| ChangelogService.IndexOfId | src/services/api/changelogService.js:39 | the lookup finds the first entry with the parsed id, or -1 when there is none |
| ChangelogService.NewEntry | src/services/api/changelogService.js:28-32 | `create` forces the id and sets releaseDate to now |
| ChangelogService.ApplyPatch | src/services/api/changelogService.js:43-46 | the merge keeps the id; each of title, description, category, releaseDate and relatedPostIds takes the supplied value, or keeps the old one when absent |
| ChangelogService.ApplyPatchLaws | src/services/api/changelogService.js:43-46 | an empty patch changes nothing, and applying a patch twice is the same as once |
| ChangelogService.NewEntryListedFirst | src/services/api/changelogService.js:27-33 | an entry created now heads the listing, even on a tie, because it is prepended |
| ChangelogService.ChangelogStore.constructor | src/services/api/changelogService.js:3 | the store starts as the seed data |
| ChangelogService.ChangelogStore.GetAll | src/services/api/changelogService.js:8-14 | the listing of the store; the store itself is untouched |
| ChangelogService.ChangelogStore.GetById | src/services/api/changelogService.js:16-23 | the first entry with the id, or not-found exactly when there is none |
| ChangelogService.ChangelogStore.Create | src/services/api/changelogService.js:25-35 | puts one new entry with a fresh id at index 0 |
| ChangelogService.ChangelogStore.Update | src/services/api/changelogService.js:37-48 | merges the patch into the one entry; not-found changes nothing |
| ChangelogService.ChangelogStore.Delete | src/services/api/changelogService.js:50-58 | removes exactly the one entry and returns it; not-found changes nothing |
| ImageUpload.ValidateFileSpec | src/components/atoms/ImageUpload.jsx:11-24 | a file passes exactly when it is an image no larger than the limit (the limit itself passes); a non-image gets the type error whatever its size |
| ImageUpload.Errors | src/components/atoms/ImageUpload.jsx:44-55 | at most one error per file |
| ImageUpload.Classify | src/components/atoms/ImageUpload.jsx:44-54 | the loop over the files yields exactly the refused files' errors and the valid files, each in file order |
| ImageUpload.EncodeAll | src/components/atoms/ImageUpload.jsx:61-63 | the encodings of all files in order, or a failure exactly when some file fails |
| ImageUpload.NoErrorsAllValid | src/components/atoms/ImageUpload.jsx:47-59 | there are no errors exactly when every file is valid |
| ImageUpload.FirstErrorIsFirstFiles | src/components/atoms/ImageUpload.jsx:56-58 | the error shown is that of the first refused file |
| ImageUpload.RejectionReason | src/components/atoms/ImageUpload.jsx:39-59 | the count cap is checked before the files; otherwise the first refused file's error is reported |
| ImageUpload.AcceptedBatch | src/components/atoms/ImageUpload.jsx:39-66 | an accepted batch had only valid files, and the new list is the old images followed by every encoding in order, within maxImages |
| ImageUpload.RemoveIndex | src/components/atoms/ImageUpload.jsx:95-98 | removes exactly element i and keeps the order of the rest; an index outside the list changes nothing |
| ImageUpload.Uploader.constructor | src/components/atoms/ImageUpload.jsx:6 | maxImages and maxSizeMB default to 5 |
| ImageUpload.Uploader.HandleFiles | src/components/atoms/ImageUpload.jsx:35-70 | the loop collects the errors and the valid files, then the outcome is all or nothing: a refused batch leaves the images and shows the reason, an accepted one replaces them |
| ImageUpload.Uploader.RemoveImage | src/components/atoms/ImageUpload.jsx:95-98 | the images become the list without index i |
| FilterSidebar.ToggleCategory | src/components/molecules/FilterSidebar.jsx:30-36 | the toggle leaves statuses, search and sortBy unchanged |
| FilterSidebar.ToggleStatus | src/components/molecules/FilterSidebar.jsx:38-44 | the toggle leaves categories, search and sortBy unchanged |
| FilterSidebar.ToggleMembership | src/components/molecules/FilterSidebar.jsx:31-33 | a toggle flips its value's membership, removing every copy or appending at the end, and leaves other values alone |
| FilterSidebar.ToggleTwiceAbsent | src/components/molecules/FilterSidebar.jsx:31-33 | toggling an absent value twice restores the list |
| FilterSidebar.ToggleTwicePresentMovesToEnd | src/components/molecules/FilterSidebar.jsx:31-33 | toggling a present value twice moves it to the end, e.g. ["a","b"] becomes ["b","a"] |
| FilterSidebar.ToggleTwiceSameValues | src/components/molecules/FilterSidebar.jsx:30-44 | toggling twice always restores which values are selected |
| FilterSidebar.QuerySeesOnlyMembership | src/services/api/feedbackService.js:14-25 | the query depends only on which categories and statuses are selected |
| FilterSidebar.ToggleTwiceSameBoard | src/components/molecules/FilterSidebar.jsx:30-44 | toggling a category or status twice gives the same board |
| FilterSidebar.ClearShowsEverything | src/components/molecules/FilterSidebar.jsx:46-54 | after clearing nothing is active, and with no sortBy key the board lists every post in store order |
| FilterSidebar.SidebarIgnoresSearch | src/components/molecules/FilterSidebar.jsx:54 | the sidebar's indicator ignores the search text |
| FeedbackBoard.LedgerAfter | src/components/pages/FeedbackBoard.jsx:73-79 | an up-vote pushes the id; a down-vote removes one copy, or nothing when it is absent |
| FeedbackBoard.LedgerDownVote | src/components/pages/FeedbackBoard.jsx:76-77 | a down-vote splices out the first copy of the id and keeps the ids before and after it in order |
| FeedbackBoard.OverlappingVotesLoseUpdate | src/components/pages/FeedbackBoard.jsx:61-79 | with two overlapping votes on different posts, the list written last leaves the first post's membership as it was before its vote |
| FeedbackBoard.OverlappingVotesKeepBoth | src/components/pages/FeedbackBoard.jsx:61-79 | when each finish re-reads the stored list, both posts' membership flips and the list stays free of duplicates |
| FeedbackBoard.LedgerFlips | src/components/pages/FeedbackBoard.jsx:61-79 | voting in the chosen direction flips whether the id is stored, touches no other id, and keeps the list free of duplicates |
| FeedbackBoard.RemoveFirstKeepsNoDuplicates | src/components/pages/FeedbackBoard.jsx:76-77 | splicing the first copy out of a duplicate-free list removes the id entirely |
| FeedbackBoard.LedgerRoundTrip | src/components/pages/FeedbackBoard.jsx:73-79 | up then down gives back the stored list |
| FeedbackBoard.ReplaceById | src/components/pages/FeedbackBoard.jsx:68-70 | the replacement keeps the list's length |
| FeedbackBoard.ReplaceByIdEffect | src/components/pages/FeedbackBoard.jsx:68-70 | only the posts with the id are replaced, and an absent id changes nothing |
| FeedbackBoard.BoardActiveIsSidebarOrSearch | src/components/pages/FeedbackBoard.jsx:119 | the board's indicator is the sidebar's or a non-empty search |
| FeedbackBoard.Board.constructor | src/components/pages/FeedbackBoard.jsx:24-25 | no vote starts in flight |
| FeedbackBoard.Board.BeginVote | src/components/pages/FeedbackBoard.jsx:54-63 | a post already in flight is ignored; otherwise it is marked, the stored list is read into a copy, and the direction is up exactly when the id is not in that copy |
| FeedbackBoard.Board.FinishVote | src/components/pages/FeedbackBoard.jsx:65-89 | success replaces the post and writes back the copy read before the request, updated, over whatever the list holds now; failure changes neither; the post leaves the in-flight set either way |
| FeedbackBoard.Board.FinishVoteRereading | src/components/pages/FeedbackBoard.jsx:72-79 | the corrected second half: the list as it stands when the request returns is updated |
| FeedbackBoard.Board.OverlappingVotes | src/components/pages/FeedbackBoard.jsx:54-91 | two overlapping clicks on different posts leave the list that the second handler wrote from its own copy |
| FeedbackBoard.Board.HandleVote | src/components/pages/FeedbackBoard.jsx:54-91 | a whole vote against the store: only the voted store post changes, by its count, and the listed post and the stored list move with it |
| SubmitModal.ErrorKeys | src/components/organisms/SubmitModal.jsx:35-60 | the recorded keys are exactly the fields whose rule fails, each with a non-empty message |
| SubmitModal.FormErrorsSpec | src/components/organisms/SubmitModal.jsx:38-56 | title, description text and author name are required when blank after trimming, the category when empty, and the name only for a non-anonymous author |
| SubmitModal.ValidIff | src/components/organisms/SubmitModal.jsx:58-59 | the form is valid exactly when every rule passes |
| SubmitModal.SubmittedDraft | src/components/organisms/SubmitModal.jsx:69-73 | the draft carries the form's fields and images, and no status or counts |
| SubmitModal.SubmittedAuthorSpec | src/components/organisms/SubmitModal.jsx:70-73 | "Anonymous" for an anonymous author; otherwise the name with only its surrounding white space dropped, which is then non-blank |
| SubmitModal.ApplyEdit | src/components/organisms/SubmitModal.jsx:99-100 | an edit changes only its own field |
| SubmitModal.ClearErrorSpec | src/components/organisms/SubmitModal.jsx:101-104 | typing blanks only that field's error and keeps every key |
| SubmitModal.Modal.constructor | src/components/organisms/SubmitModal.jsx:12-21 | the form starts empty with no errors |
| SubmitModal.Modal.ValidateForm | src/components/organisms/SubmitModal.jsx:35-60 | the step-by-step checks record exactly the rule errors, and the result is true exactly when there are none |
| SubmitModal.Modal.HandleSubmit | src/components/organisms/SubmitModal.jsx:62-97 | an invalid form only shows its errors; a valid one creates exactly one post and resets the form and errors |
| SubmitModal.Modal.InputChange | src/components/organisms/SubmitModal.jsx:99-105 | sets the one field and blanks only its error |
| FeedbackCard.Prefix | src/components/molecules/FeedbackCard.jsx:39 | `substring(0, n)` is a prefix of length n, clamped to the string |
| FeedbackCard.TruncateTextSpec | src/components/molecules/FeedbackCard.jsx:37-40 | a text that fits is unchanged; otherwise the result is the first maxLength characters with only their surrounding white space dropped, plus "...", at most maxLength + 3 long |
| FeedbackCard.TruncateTextDefault | src/components/molecules/FeedbackCard.jsx:37 | with the default 120 the result fits in 123 characters |
| FeedbackCard.Split | src/components/molecules/FeedbackCard.jsx:32 | `split("-")` always yields at least one piece |
| FeedbackCard.FormatStatusSpec | src/components/molecules/FeedbackCard.jsx:31-35 | the result equals the character-by-character rendering (each dash becomes a space, the first letter of each word is upper-cased, nothing else changes) and keeps the length |
| FeedbackCard.GlueSplitIsRendered | src/components/molecules/FeedbackCard.jsx:32-34 | splitting, capitalising and joining equals the character-by-character rendering |
| FeedbackCard.FormatStatusInProgress | src/components/molecules/FeedbackCard.jsx:31-35 | "in-progress" reads "In Progress" |
| FeedbackCard.StatusColorSpec | src/components/molecules/FeedbackCard.jsx:21-29 | the four statuses get four distinct non-default colours, and any other status gets "default" |
| FeedbackCard.HasImagesSpec | src/components/molecules/FeedbackCard.jsx:15 | `hasImages` is true exactly when the list is present and non-empty; a present but empty list shows no badge |

## Left out

- Timing and persistence:
  - The `delay` timers and `Promise.all` concurrency are left out. Every service call is synchronous.
  - Local storage and JSON encoding of the voted list are left out. The list is the `Board.voted` field.
  - `FeedbackBoard.Board.HandleVote` composes the two halves with no other click in between. `BeginVote` and `FinishVote` are kept apart so that a click during the request can be modelled; `FeedbackBoard.Board.OverlappingVotes` is one such interleaving.
- Parameters in place of browser and clock:
  - The wall clock, `toISOString` and day arithmetic are left out. They are replaced by integer `now` and `today` parameters.
  - The `FileReader` base64 conversion is the `encode` parameter.
  - The HTML-to-text step of the description check is the `stripHtml` parameter.
- Text:
  - Unicode case mapping and Unicode white space are left out. Only ASCII is modelled.
  - Toasts, `onClose`, `window.location.reload`, the submitting flag, rendering, drag and drop, and the UI components are left out.
- Catch paths that cannot fire here:
  - The submit form's catch path is unreachable in the model, because `create` cannot fail.
  - The vote's catch path is modelled only through the store's not-found error.
- Ids and record shapes:
  - FeedbackService.FeedbackStore.Create: drafts carry no `Id`. In the source a caller-supplied `Id` would replace the allocated one, because the spread comes after it. The same holds for `CommentService.CommentStore.Create` and `ChangelogService.ChangelogStore.Create`.
  - FeedbackService.FeedbackStore.Update: patches carry no `Id`. A patch with an `Id` key would renumber the record.
  - ChangelogService.ChangelogStore.Update: patches carry no `Id` either. `update` at changelogService.js:43-46 does not force the id, so a patch with an `Id` key would renumber the entry.
- Corrected behaviour used by the stores:
  - CommentService.CommentStore.Create: stores the corrected record of `NewComment`, whose references are in string form. The source stores the caller's references as given (commentService.js:34-39), so a comment created with a numeric `postId` is not listed by `getByPostId`; `CommentService.NewCommentAsWritten` and `CommentService.NumericPostIdHidesNewComment` model that, as the Findings record.
  - CommentService.CommentStore.Update: patches cannot change the `Id`, `postId`, `roadmapItemId` or `parentId` references.
  - The feedback post's `images` is always present as a list. `hasImages` is `FeedbackCard.HasImages` on an optional list, so a missing list is covered.
- Type assumptions:
  - RoadmapService.RoadmapStore.UpdateStage: `feedbackPostId` is assumed to be stored as the string of an integer. The `=== String(id)` test is then equality of those integers.
  - ImageUpload.Uploader.constructor: `maxSizeMB` and `maxImages` are natural numbers. The source accepts any number.
- Duplicated logic outside these files is not part of this model:
  - the vote handler of the post detail view;
  - the other `formatStatus` and `truncateText` copies;
  - the optimistic vote of the roadmap detail page.
- Toggling a present value twice restores the selected values and the board, but not the list order. `FilterSidebar.ToggleTwicePresentMovesToEnd` shows that the value moves to the end. On a duplicate-free list the order is restored only when the value was absent.

## Findings

| source | as written | input that shows it | evidently intended | confidence | as-written member | corrected member |
|---|---|---|---|---|---|---|
| src/services/api/feedbackService.js:89 | every store allocates `Math.max(...ids) + 1`; the same code is at commentService.js:33, roadmapService.js:54 and changelogService.js:27 | a store with no records, e.g. after deleting every post: the new id is -Infinity | the first id is 1 and later ids exceed every id in use | not executed | Common.JsMaxPlusOne | Common.NextId |
| src/components/organisms/PostDetailModal.jsx:106 | a comment is created with the numeric `postId: post.Id` (and a numeric `parentId` at line 139), but `getByPostId` selects `c.postId === String(postId)` at commentService.js:10 | adding any comment in the post detail view and reloading the threads: the new comment is in none of them (`CommentService.NumericPostIdHidesNewComment`) | stored references are strings, so the new comment or reply is listed (`CommentService.NewTopLevelCommentIsListed`, `CommentService.NewReplyIsListed`) | not executed | CommentService.NewCommentAsWritten | CommentService.NewComment |
| src/components/pages/FeedbackBoard.jsx:61 | `handleVote` reads the stored voted list before awaiting the vote (line 65) and writes that old copy back, updated, at lines 73-79 | click post 1, then post 2 before post 1's request returns, with an empty list: both counts rise, but the list ends as `[2]`, so the next click on post 1 votes up again (`FeedbackBoard.OverlappingVotesLoseUpdate`, `FeedbackBoard.Board.OverlappingVotes`) | each finished vote updates the list as it then stands, so both posts are recorded (`FeedbackBoard.OverlappingVotesKeepBoth`) | not executed | FeedbackBoard.Board.FinishVote | FeedbackBoard.Board.FinishVoteRereading |
