/** The comment store and its two-level thread builder
    (src/services/api/commentService.js). */
module CommentService {
  import opened Common
  import opened Lists

  /** A reference field as JavaScript holds it: the number n, or the string
      that spells n in decimal. Strict equality (`===`) tells them apart. */
  datatype JsId = Num(n: int) | Str(n: int)

  /** `String(x)`. */
  function JsString(x: JsId): JsId
  {
    Str(x.n)
  }

  /** `!x` for an optional reference: missing, null or the number 0. */
  predicate Falsy(x: Option<JsId>)
  {
    x.None? || x == Some(Num(0))
  }

  datatype Comment = Comment(
    id: int,
    postId: Option<JsId>,          // owning feedback post
    roadmapItemId: Option<JsId>,   // owning roadmap item
    parentId: Option<JsId>,        // the comment replied to, if any
    authorName: string,
    content: string,
    images: seq<string>,
    createdAt: int)

  /** A top-level comment with its direct replies (`{...comment, replies}`). */
  datatype Thread = Thread(comment: Comment, replies: seq<Comment>)

  /** What a caller hands to `create`. */
  datatype CommentDraft = CommentDraft(
    postId: Option<JsId>,
    roadmapItemId: Option<JsId>,
    parentId: Option<JsId>,
    authorName: string,
    content: string,
    images: Option<seq<string>>)

  /** What a caller hands to `update`; None means the key is absent. */
  datatype CommentPatch = CommentPatch(
    authorName: Option<string>,
    content: Option<string>,
    images: Option<seq<string>>,
    createdAt: Option<int>)

  // ---------------------------------------------------------------------
  // Thread builder

  /** The sort key `(a, b) => new Date(a.createdAt) - new Date(b.createdAt)`. */
  function CreatedAt(c: Comment): int
  {
    c.createdAt
  }

  /** Top-level comments among the selected ones, oldest first. */
  function TopLevel(selected: seq<Comment>): seq<Comment>
  {
    SortByKey(Filter(selected, (c: Comment) => Falsy(c.parentId)), CreatedAt)
  }

  /** The replies to the comment with the given id, oldest first. */
  function RepliesTo(selected: seq<Comment>, id: int): seq<Comment>
  {
    SortByKey(Filter(selected, (c: Comment) => c.parentId == Some(JsString(Num(id)))), CreatedAt)
  }

  /** The two-level tree of `getByPostId` and `getByRoadmapItemId`, built
      from the comments the caller has already selected. */
  function Threads(selected: seq<Comment>): (r: seq<Thread>)
    ensures |r| == |TopLevel(selected)|
    ensures forall i :: 0 <= i < |r| ==>
      r[i].comment == TopLevel(selected)[i] && r[i].replies == RepliesTo(selected, r[i].comment.id)
  {
    var top := TopLevel(selected);
    seq(|top|, i requires 0 <= i < |top| => Thread(top[i], RepliesTo(selected, top[i].id)))
  }

  /** `comments.filter(c => c.postId === String(postId))`. */
  function ByPost(comments: seq<Comment>, postId: JsId): seq<Comment>
  {
    Filter(comments, (c: Comment) => c.postId == Some(JsString(postId)))
  }

  /** `comments.filter(c => c.roadmapItemId === String(roadmapItemId))`. */
  function ByRoadmapItem(comments: seq<Comment>, itemId: JsId): seq<Comment>
  {
    Filter(comments, (c: Comment) => c.roadmapItemId == Some(JsString(itemId)))
  }

  /** The top-level list holds exactly the selected comments with a falsy
      parentId, each as often as it was selected. */
  lemma TopLevelContents(selected: seq<Comment>)
    ensures forall c :: multiset(TopLevel(selected))[c] == if Falsy(c.parentId) then multiset(selected)[c] else 0
    ensures forall c :: c in TopLevel(selected) <==> c in selected && Falsy(c.parentId)
  {
    var top := TopLevel(selected);
    var heads := Filter(selected, (c: Comment) => Falsy(c.parentId));
    assert multiset(top) == multiset(heads);
    assert forall c :: c in top <==> c in multiset(top);
    assert forall c :: c in heads <==> c in multiset(heads);
  }

  lemma TopLevelMembers(selected: seq<Comment>)
    ensures forall c :: c in TopLevel(selected) <==> c in selected && Falsy(c.parentId)
  {
    TopLevelContents(selected);
  }

  /** The replies to a comment are exactly the selected comments whose
      parentId is the string form of its id. */
  lemma RepliesContents(selected: seq<Comment>, id: int)
    ensures forall c :: c in RepliesTo(selected, id) <==> c in selected && c.parentId == Some(Str(id))
  {
    SortByKeyMembers(Filter(selected, (c: Comment) => c.parentId == Some(JsString(Num(id)))), CreatedAt);
  }

  /** A thread's replies: exactly the direct replies, oldest first. */
  lemma RepliesShape(selected: seq<Comment>, id: int)
    ensures SortedBy(RepliesTo(selected, id), CreatedAt)
    ensures forall c :: c in RepliesTo(selected, id) <==> c in selected && c.parentId == Some(Str(id))
  {
    SortByKeySorted(Filter(selected, (c: Comment) => c.parentId == Some(JsString(Num(id)))), CreatedAt);
    RepliesContents(selected, id);
  }

  /** The heads of the threads are exactly the selected top-level comments,
      each as often as it was selected, in ascending createdAt order; each
      thread's replies are exactly the selected comments whose parentId is
      the string form of the head's id, in ascending createdAt order. */
  lemma ThreadsShape(selected: seq<Comment>)
    ensures var r := Threads(selected);
      && (forall c :: multiset(TopLevel(selected))[c] == if Falsy(c.parentId) then multiset(selected)[c] else 0)
      && (forall i, j :: 0 <= i < j < |r| ==> r[i].comment.createdAt <= r[j].comment.createdAt)
      && (forall i, c :: 0 <= i < |r| ==>
            (c in r[i].replies <==> c in selected && c.parentId == Some(Str(r[i].comment.id))))
      && (forall i :: 0 <= i < |r| ==>
            forall m, n :: 0 <= m < n < |r[i].replies| ==> r[i].replies[m].createdAt <= r[i].replies[n].createdAt)
  {
    TopLevelContents(selected);
    HeadsOrdered(selected);
    ThreadReplies(selected);
  }

  lemma HeadsOrdered(selected: seq<Comment>)
    ensures var r := Threads(selected);
      forall i, j :: 0 <= i < j < |r| ==> r[i].comment.createdAt <= r[j].comment.createdAt
  {
    var top := TopLevel(selected);
    SortByKeySorted(Filter(selected, (c: Comment) => Falsy(c.parentId)), CreatedAt);
    assert forall i, j :: 0 <= i < j < |top| ==> top[i].createdAt <= top[j].createdAt;
  }

  lemma ThreadReplies(selected: seq<Comment>)
    ensures var r := Threads(selected);
      && (forall i, c :: 0 <= i < |r| ==>
            (c in r[i].replies <==> c in selected && c.parentId == Some(Str(r[i].comment.id))))
      && (forall i :: 0 <= i < |r| ==>
            forall m, n :: 0 <= m < n < |r[i].replies| ==> r[i].replies[m].createdAt <= r[i].replies[n].createdAt)
  {
    var r := Threads(selected);
    forall i | 0 <= i < |r|
      ensures SortedBy(r[i].replies, CreatedAt)
      ensures forall c :: c in r[i].replies <==> c in selected && c.parentId == Some(Str(r[i].comment.id))
    {
      RepliesShape(selected, r[i].comment.id);
    }
  }

  /** c is the head of one of the threads or one of its replies. */
  predicate InThreads(r: seq<Thread>, c: Comment)
  {
    exists i :: 0 <= i < |r| && (r[i].comment == c || c in r[i].replies)
  }

  /** c is a selected comment that getByPostId keeps: top-level, or a direct
      reply to a selected top-level comment. */
  predicate Listed(selected: seq<Comment>, c: Comment)
  {
    c in selected &&
    (Falsy(c.parentId) || exists h :: h in selected && Falsy(h.parentId) && c.parentId == Some(Str(h.id)))
  }

  lemma ListedIsInThreads(selected: seq<Comment>, c: Comment)
    requires Listed(selected, c)
    ensures InThreads(Threads(selected), c)
  {
    if Falsy(c.parentId) {
      var i := HeadIndex(selected, c);
      assert Threads(selected)[i].comment == c;
    } else {
      var h :| h in selected && Falsy(h.parentId) && c.parentId == Some(Str(h.id));
      var i := HeadIndex(selected, h);
      RepliesContents(selected, h.id);
      assert c in Threads(selected)[i].replies;
    }
  }

  /** Where a selected top-level comment heads its thread. */
  lemma HeadIndex(selected: seq<Comment>, c: Comment) returns (i: int)
    requires c in selected && Falsy(c.parentId)
    ensures 0 <= i < |Threads(selected)| && Threads(selected)[i].comment == c
  {
    var top := TopLevel(selected);
    TopLevelMembers(selected);
    i :| 0 <= i < |top| && top[i] == c;
  }

  lemma InThreadsIsListed(selected: seq<Comment>, c: Comment)
    requires InThreads(Threads(selected), c)
    ensures Listed(selected, c)
  {
    var r := Threads(selected);
    var top := TopLevel(selected);
    var i :| 0 <= i < |r| && (r[i].comment == c || c in r[i].replies);
    var h := r[i].comment;
    assert h == top[i];
    TopLevelContents(selected);
    assert h in selected && Falsy(h.parentId);
    if h != c {
      RepliesContents(selected, h.id);
    }
  }

  /** A comment appears somewhere in the tree exactly when it is a selected
      top-level comment or a direct reply to one. A reply to a reply, or to a
      comment that does not exist, is dropped. */
  lemma ThreadsMembership(selected: seq<Comment>, c: Comment)
    ensures InThreads(Threads(selected), c) <==> Listed(selected, c)
  {
    if Listed(selected, c) {
      ListedIsInThreads(selected, c);
    }
    if InThreads(Threads(selected), c) {
      InThreadsIsListed(selected, c);
    }
  }

  // ---------------------------------------------------------------------
  // Creating comments

  /** The record `create` builds, as written: the caller's reference fields
      are stored as they come. */
  function NewCommentAsWritten(draft: CommentDraft, id: int, now: int): (c: Comment)
    ensures c.id == id && c.createdAt == now
    ensures c.postId == draft.postId && c.parentId == draft.parentId
  {
    Comment(id, draft.postId, draft.roadmapItemId, draft.parentId,
            draft.authorName, draft.content, Or(draft.images, []), now)
  }

  /** The post detail view creates a comment with the numeric id of the post
      and then reloads the post's threads; the new comment is in none of
      them, because `getByPostId` compares with the string form of the id. */
  lemma NumericPostIdHidesNewComment(comments: seq<Comment>, draft: CommentDraft, id: int, now: int, i: int)
    requires draft.postId.Some? && draft.postId.value.Num?
    requires 0 <= i < |Threads(ByPost(comments + [NewCommentAsWritten(draft, id, now)], draft.postId.value))|
    ensures var t := Threads(ByPost(comments + [NewCommentAsWritten(draft, id, now)], draft.postId.value))[i];
      t.comment != NewCommentAsWritten(draft, id, now) && NewCommentAsWritten(draft, id, now) !in t.replies
  {
    var c := NewCommentAsWritten(draft, id, now);
    var selected := ByPost(comments + [c], draft.postId.value);
    assert c !in selected;
    ThreadsMembership(selected, c);
  }

  /** A reference normalised to the string form the stored data and the
      lookups use; a falsy parent stays absent. */
  function Normalise(x: Option<JsId>): (r: Option<JsId>)
    ensures Falsy(x) <==> r.None?
    ensures r.Some? ==> r.value == JsString(x.value)
  {
    if Falsy(x) then None else Some(JsString(x.value))
  }

  /** The record `create` builds once the reference fields are stored in
      string form, as the lookups expect. */
  function NewComment(draft: CommentDraft, id: int, now: int): (c: Comment)
    ensures c.id == id && c.createdAt == now
    ensures c.images == if draft.images.Some? then draft.images.value else []
    ensures c.authorName == draft.authorName && c.content == draft.content
    ensures c.postId == Normalise(draft.postId) && c.parentId == Normalise(draft.parentId)
    ensures c.roadmapItemId == Normalise(draft.roadmapItemId)
  {
    Comment(id, Normalise(draft.postId), Normalise(draft.roadmapItemId), Normalise(draft.parentId),
            draft.authorName, draft.content, Or(draft.images, []), now)
  }

  /** With normalised references a new top-level comment heads a thread of
      its post, whichever form the caller used for the post id. */
  lemma NewTopLevelCommentIsListed(comments: seq<Comment>, draft: CommentDraft, id: int, now: int)
    requires draft.postId.Some? && !Falsy(draft.postId)
    requires Falsy(draft.parentId)
    ensures exists i :: (0 <= i < |Threads(ByPost(comments + [NewComment(draft, id, now)], draft.postId.value))|
      && Threads(ByPost(comments + [NewComment(draft, id, now)], draft.postId.value))[i].comment
         == NewComment(draft, id, now))
  {
    var c := NewComment(draft, id, now);
    var selected := ByPost(comments + [c], draft.postId.value);
    assert c in comments + [c];
    assert c in selected;
    var i := HeadIndex(selected, c);
  }

  /** With normalised references a reply to a top-level comment of the same
      post is listed under it. */
  lemma NewReplyIsListed(comments: seq<Comment>, draft: CommentDraft, id: int, now: int, parent: Comment)
    requires draft.postId.Some? && !Falsy(draft.postId)
    requires parent in comments && Falsy(parent.parentId) && parent.postId == Some(JsString(draft.postId.value))
    requires draft.parentId == Some(Num(parent.id)) && parent.id != 0
    ensures exists i :: (0 <= i < |Threads(ByPost(comments + [NewComment(draft, id, now)], draft.postId.value))|
      && NewComment(draft, id, now) in Threads(ByPost(comments + [NewComment(draft, id, now)], draft.postId.value))[i].replies)
  {
    var c := NewComment(draft, id, now);
    var selected := ByPost(comments + [c], draft.postId.value);
    assert c in comments + [c] && parent in comments + [c];
    assert c in selected && parent in selected;
    assert c.parentId == Some(Str(parent.id));
    var i := HeadIndex(selected, parent);
    RepliesContents(selected, parent.id);
    assert c in Threads(selected)[i].replies;
  }

  // ---------------------------------------------------------------------
  // Store operations

  function Ids(comments: seq<Comment>): (ids: seq<int>)
    ensures |ids| == |comments|
    ensures forall i :: 0 <= i < |comments| ==> ids[i] == comments[i].id
  {
    seq(|comments|, i requires 0 <= i < |comments| => comments[i].id)
  }

  /** `comments.findIndex(c => c.Id === parseInt(id))`. */
  function IndexOfId(comments: seq<Comment>, id: int): (r: int)
    ensures -1 <= r < |comments|
    ensures r == -1 <==> forall i :: 0 <= i < |comments| ==> comments[i].id != id
    ensures 0 <= r ==> comments[r].id == id && forall i :: 0 <= i < r ==> comments[i].id != id
  {
    FindIndex(comments, (c: Comment) => c.id == id)
  }

  /** The `{...comment, ...updateData, images}` merge of `update`. */
  function ApplyPatch(c: Comment, patch: CommentPatch): (r: Comment)
    ensures r.id == c.id && r.postId == c.postId && r.roadmapItemId == c.roadmapItemId && r.parentId == c.parentId
    ensures Overrides(patch.authorName, c.authorName, r.authorName) && Overrides(patch.content, c.content, r.content)
    ensures Overrides(patch.images, c.images, r.images) && Overrides(patch.createdAt, c.createdAt, r.createdAt)
  {
    c.(authorName := Or(patch.authorName, c.authorName), content := Or(patch.content, c.content),
       images := Or(patch.images, c.images), createdAt := Or(patch.createdAt, c.createdAt))
  }

  /** The mock store: the module-level `comments` array. */
  class CommentStore {
    var comments: seq<Comment>

    constructor (initial: seq<Comment>)
      ensures comments == initial
    {
      comments := initial;
    }

    /** `getByPostId(postId)`: the two-level threads of one post. */
    method GetByPostId(postId: JsId) returns (r: seq<Thread>)
      ensures forall c :: (exists i :: 0 <= i < |r| && r[i].comment == c) <==>
        c in comments && c.postId == Some(JsString(postId)) && Falsy(c.parentId)
      ensures r == Threads(ByPost(comments, postId))
    {
      r := Threads(ByPost(comments, postId));
      HeadsOfThreads(ByPost(comments, postId));
    }

    /** `getByRoadmapItemId(roadmapItemId)`: the same shape, selected on the
        roadmap item reference. */
    method GetByRoadmapItemId(itemId: JsId) returns (r: seq<Thread>)
      ensures forall c :: (exists i :: 0 <= i < |r| && r[i].comment == c) <==>
        c in comments && c.roadmapItemId == Some(JsString(itemId)) && Falsy(c.parentId)
      ensures r == Threads(ByRoadmapItem(comments, itemId))
    {
      r := Threads(ByRoadmapItem(comments, itemId));
      HeadsOfThreads(ByRoadmapItem(comments, itemId));
    }

    /** `getAll()`: every comment, in store order. */
    method GetAll() returns (r: seq<Comment>)
      ensures r == comments
    {
      r := comments;
    }

    /** `getById(id)`. */
    method GetById(id: int) returns (r: Result<Comment>)
      ensures r.Err? <==> forall i :: 0 <= i < |comments| ==> comments[i].id != id
      ensures r.Err? ==> r.error == NotFound(id)
      ensures r.Ok? ==> r.value == comments[IndexOfId(comments, id)] && r.value.id == id
    {
      var i := IndexOfId(comments, id);
      if i == -1 {
        r := Err(NotFound(id));
      } else {
        r := Ok(comments[i]);
      }
    }

    /** `create(commentData)`: appends one comment with the next id. */
    method Create(draft: CommentDraft, now: int) returns (c: Comment)
      modifies this
      ensures c == NewComment(draft, NextId(Ids(old(comments))), now)
      ensures c.id !in Ids(old(comments))
      ensures comments == old(comments) + [c]
    {
      c := NewComment(draft, NextId(Ids(comments)), now);
      comments := comments + [c];
    }

    /** `update(id, updateData)`. */
    method Update(id: int, patch: CommentPatch) returns (r: Result<Comment>)
      modifies this
      ensures var k := IndexOfId(old(comments), id);
        && (k == -1 ==> r == Err(NotFound(id)) && comments == old(comments))
        && (k >= 0 ==> comments == old(comments)[k := ApplyPatch(old(comments)[k], patch)] && r == Ok(comments[k]))
    {
      var k := IndexOfId(comments, id);
      if k == -1 {
        r := Err(NotFound(id));
        return;
      }
      comments := comments[k := ApplyPatch(comments[k], patch)];
      r := Ok(comments[k]);
    }

    /** `delete(id)`: removes the one comment and returns it. */
    method Delete(id: int) returns (r: Result<Comment>)
      modifies this
      ensures var k := IndexOfId(old(comments), id);
        && (k == -1 ==> r == Err(NotFound(id)) && comments == old(comments))
        && (k >= 0 ==> r == Ok(old(comments)[k]) && comments == RemoveAt(old(comments), k))
    {
      var k := IndexOfId(comments, id);
      if k == -1 {
        r := Err(NotFound(id));
        return;
      }
      r := Ok(comments[k]);
      comments := RemoveAt(comments, k);
    }
  }

  /** The thread heads are the selected top-level comments. */
  lemma HeadsOfThreads(selected: seq<Comment>)
    ensures forall c :: (exists i :: 0 <= i < |Threads(selected)| && Threads(selected)[i].comment == c) <==>
      c in selected && Falsy(c.parentId)
  {
    TopLevelMembers(selected);
    forall c | c in selected && Falsy(c.parentId)
      ensures exists i :: 0 <= i < |Threads(selected)| && Threads(selected)[i].comment == c
    {
      var i := HeadIndex(selected, c);
    }
  }
}
