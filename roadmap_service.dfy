/** The roadmap store and its board view (src/services/api/roadmapService.js).
    The board joins each roadmap item to its feedback post and groups the
    joined items into three stage columns. */
module RoadmapService {
  import opened Common
  import opened Lists
  import FeedbackService

  type Post = FeedbackService.Post

  /** A roadmap item. `feedbackPostId` is stored as the string form of a post
      id; it is kept here as the number it spells. */
  datatype RoadmapItem = RoadmapItem(
    id: int,
    feedbackPostId: int,
    stage: string,              // "planned" | "in-progress" | "completed", or anything else
    position: int,
    estimatedDate: Option<int>) // a day number; None for `null`

  /** `{...item, post}`. */
  datatype JoinedItem = JoinedItem(item: RoadmapItem, post: Post)

  /** The object `getAll` returns, one field per stage column. */
  datatype Board = Board(planned: seq<JoinedItem>, inProgress: seq<JoinedItem>, completed: seq<JoinedItem>)

  // ---------------------------------------------------------------------
  // The board

  /** `feedbackService.getById(item.feedbackPostId)` wrapped in the
      try/catch of `getAll`: the joined item, or None when the post is gone. */
  function Lookup(posts: seq<Post>, item: RoadmapItem): (r: Option<JoinedItem>)
    ensures r.None? <==> forall i :: 0 <= i < |posts| ==> posts[i].id != item.feedbackPostId
    ensures r.Some? ==> r.value.item == item && r.value.post in posts && r.value.post.id == item.feedbackPostId
  {
    var k := FeedbackService.IndexOfId(posts, item.feedbackPostId);
    if k == -1 then None else Some(JoinedItem(item, posts[k]))
  }

  /** `Promise.all(items.map(...))` followed by `filter(Boolean)`: the items
      whose post exists, joined to it, in store order. */
  function Join(items: seq<RoadmapItem>, posts: seq<Post>): (r: seq<JoinedItem>)
    ensures |r| <= |items|
    ensures forall j :: j in r <==> j.item in items && Lookup(posts, j.item) == Some(j)
  {
    if items == [] then []
    else
      assert items == [items[0]] + items[1..];
      var rest := Join(items[1..], posts);
      match Lookup(posts, items[0])
      case None => rest
      case Some(j) => [j] + rest
  }

  /** The position key of the two ascending columns. */
  function Position(j: JoinedItem): int
  {
    j.item.position
  }

  /** The key of the descending `completed` column. */
  function NegPosition(j: JoinedItem): int
  {
    -j.item.position
  }

  /** `validItems.filter(item => item.stage === stage)`. */
  function Column(joined: seq<JoinedItem>, stage: string): seq<JoinedItem>
  {
    Filter(joined, (j: JoinedItem) => j.item.stage == stage)
  }

  /** The grouping and ordering of `getAll`. */
  function Group(joined: seq<JoinedItem>): Board
  {
    Board(SortByKey(Column(joined, "planned"), Position),
          SortByKey(Column(joined, "in-progress"), Position),
          SortByKey(Column(joined, "completed"), NegPosition))
  }

  /** The board of a store: the grouping of the joined items. */
  function BoardOf(items: seq<RoadmapItem>, posts: seq<Post>): Board
  {
    Group(Join(items, posts))
  }

  /** An item reaches the board exactly when its post exists; a missing post
      drops that item only. */
  lemma JoinKeepsJoinable(items: seq<RoadmapItem>, posts: seq<Post>, item: RoadmapItem)
    requires item in items
    ensures (exists j :: j in Join(items, posts) && j.item == item)
        <==> exists i :: 0 <= i < |posts| && posts[i].id == item.feedbackPostId
  {
    if exists i :: 0 <= i < |posts| && posts[i].id == item.feedbackPostId {
      var j := Lookup(posts, item).value;
      assert j in Join(items, posts);
    }
  }

  /** Each column holds exactly the joined items of its stage, each as often
      as it was joined; an item of any other stage is in no column. */
  lemma ColumnContents(joined: seq<JoinedItem>, stage: string)
    ensures forall j :: j in SortByKey(Column(joined, stage), Position) <==> j in joined && j.item.stage == stage
    ensures forall j :: j in SortByKey(Column(joined, stage), NegPosition) <==> j in joined && j.item.stage == stage
    ensures forall j :: multiset(SortByKey(Column(joined, stage), Position))[j]
                        == if j.item.stage == stage then multiset(joined)[j] else 0
    ensures forall j :: multiset(SortByKey(Column(joined, stage), NegPosition))[j]
                        == if j.item.stage == stage then multiset(joined)[j] else 0
  {
    var c := Column(joined, stage);
    SortByKeyMembers(c, Position);
    SortByKeyMembers(c, NegPosition);
  }

  /** `planned` and `in-progress` ascend by position, `completed` descends,
      and items of equal position keep their store order. */
  lemma GroupOrdered(joined: seq<JoinedItem>)
    ensures var b := Group(joined);
      && (forall i, k :: 0 <= i < k < |b.planned| ==> b.planned[i].item.position <= b.planned[k].item.position)
      && (forall i, k :: 0 <= i < k < |b.inProgress| ==> b.inProgress[i].item.position <= b.inProgress[k].item.position)
      && (forall i, k :: 0 <= i < k < |b.completed| ==> b.completed[i].item.position >= b.completed[k].item.position)
  {
    SortByKeySorted(Column(joined, "planned"), Position);
    SortByKeySorted(Column(joined, "in-progress"), Position);
    SortByKeySorted(Column(joined, "completed"), NegPosition);
  }

  /** Items with equal position keep their relative order in every column
      (the `completed` key is the negated position). */
  lemma GroupStable(joined: seq<JoinedItem>, p: int)
    ensures WithKey(Group(joined).planned, Position, p) == WithKey(Column(joined, "planned"), Position, p)
    ensures WithKey(Group(joined).inProgress, Position, p) == WithKey(Column(joined, "in-progress"), Position, p)
    ensures WithKey(Group(joined).completed, NegPosition, p) == WithKey(Column(joined, "completed"), NegPosition, p)
  {
    SortByKeyStable(Column(joined, "planned"), Position, p);
    SortByKeyStable(Column(joined, "in-progress"), Position, p);
    SortByKeyStable(Column(joined, "completed"), NegPosition, p);
  }

  /** The board of a store holds exactly the items whose post exists and
      whose stage is one of the three columns'. */
  lemma BoardMembership(items: seq<RoadmapItem>, posts: seq<Post>, j: JoinedItem)
    ensures var b := BoardOf(items, posts);
      (j in b.planned || j in b.inProgress || j in b.completed)
      <==> j.item in items && Lookup(posts, j.item) == Some(j)
           && (j.item.stage == "planned" || j.item.stage == "in-progress" || j.item.stage == "completed")
  {
    var joined := Join(items, posts);
    ColumnContents(joined, "planned");
    ColumnContents(joined, "in-progress");
    ColumnContents(joined, "completed");
  }

  // ---------------------------------------------------------------------
  // Estimated dates

  /** `getEstimatedDate(stage)` for the given day: 90 days ahead for planned
      work, 30 for work in progress, today for completed work, and null for
      any other stage. */
  function EstimatedDate(stage: string, today: int): Option<int>
  {
    match stage
    case "planned" => Some(today + 90)
    case "in-progress" => Some(today + 30)
    case "completed" => Some(today)
    case _ => None
  }

  /** Only the three known stages get a date; the dates never lie in the
      past, and work further from done gets a later date. */
  lemma EstimatedDateOrder(stage: string, today: int)
    ensures EstimatedDate(stage, today).Some? <==> stage in ["planned", "in-progress", "completed"]
    ensures EstimatedDate(stage, today).Some? ==> EstimatedDate(stage, today).value >= today
    ensures EstimatedDate("completed", today).value < EstimatedDate("in-progress", today).value
                                                    < EstimatedDate("planned", today).value
  {
  }

  // ---------------------------------------------------------------------
  // The upsert of `updateStage`

  function ItemIds(items: seq<RoadmapItem>): (ids: seq<int>)
    ensures |ids| == |items|
    ensures forall i :: 0 <= i < |items| ==> ids[i] == items[i].id
  {
    seq(|items|, i requires 0 <= i < |items| => items[i].id)
  }

  /** `roadmapItems.findIndex(item => item.Id === parseInt(id))`. */
  function IndexOfItem(items: seq<RoadmapItem>, id: int): (r: int)
    ensures -1 <= r < |items|
    ensures r == -1 <==> forall i :: 0 <= i < |items| ==> items[i].id != id
    ensures 0 <= r ==> items[r].id == id && forall i :: 0 <= i < r ==> items[i].id != id
  {
    FindIndex(items, (it: RoadmapItem) => it.id == id)
  }

  /** `roadmapItems.findIndex(item => item.feedbackPostId === String(postId))`. */
  function IndexOfPost(items: seq<RoadmapItem>, postId: int): (r: int)
    ensures -1 <= r < |items|
    ensures r == -1 <==> forall i :: 0 <= i < |items| ==> items[i].feedbackPostId != postId
    ensures 0 <= r ==> items[r].feedbackPostId == postId && forall i :: 0 <= i < r ==> items[i].feedbackPostId != postId
  {
    FindIndex(items, (it: RoadmapItem) => it.feedbackPostId == postId)
  }

  /** The store after `updateStage(postId, stage, position)`: the post's
      first item moves to the new stage and position, or a new item is
      appended when the post has none. */
  function Upsert(items: seq<RoadmapItem>, postId: int, stage: string, position: int, today: int): seq<RoadmapItem>
  {
    var k := IndexOfPost(items, postId);
    if k == -1 then
      items + [RoadmapItem(NextId(ItemIds(items)), postId, stage, position, EstimatedDate(stage, today))]
    else
      items[k := items[k].(stage := stage, position := position, estimatedDate := EstimatedDate(stage, today))]
  }

  /** What the upsert does: every other item stays where it was, and the
      post's item, the existing one or a new one with a fresh id, carries
      the new stage, position and estimated date. */
  lemma UpsertEffect(items: seq<RoadmapItem>, postId: int, stage: string, position: int, today: int)
    ensures var r := Upsert(items, postId, stage, position, today);
      var k := IndexOfPost(items, postId);
      && |r| == (if k == -1 then |items| + 1 else |items|)
      && (forall i :: 0 <= i < |items| && i != k ==> r[i] == items[i])
      && var at := if k == -1 then |items| else k;
         && r[at].feedbackPostId == postId && r[at].stage == stage && r[at].position == position
         && r[at].estimatedDate == EstimatedDate(stage, today)
         && (k == -1 ==> r[at].id !in ItemIds(items))
         && (k >= 0 ==> r[at].id == items[k].id)
  {
  }

  /** The number of items for a post. */
  function CountFor(items: seq<RoadmapItem>, postId: int): nat
  {
    if items == [] then 0
    else (if items[0].feedbackPostId == postId then 1 else 0) + CountFor(items[1..], postId)
  }

  lemma {:induction false} CountForAppend(items: seq<RoadmapItem>, n: RoadmapItem, postId: int)
    ensures CountFor(items + [n], postId) == CountFor(items, postId) + (if n.feedbackPostId == postId then 1 else 0)
  {
    if items != [] {
      assert (items + [n])[1..] == items[1..] + [n];
      CountForAppend(items[1..], n, postId);
    }
  }

  lemma {:induction false} CountForUpdate(items: seq<RoadmapItem>, k: int, n: RoadmapItem, postId: int)
    requires 0 <= k < |items| && n.feedbackPostId == items[k].feedbackPostId
    ensures CountFor(items[k := n], postId) == CountFor(items, postId)
  {
    if k > 0 {
      assert items[k := n][1..] == items[1..][k - 1 := n];
      CountForUpdate(items[1..], k - 1, n, postId);
    } else {
      assert items[k := n][1..] == items[1..];
    }
  }

  /** The post has an item exactly when its count is positive. */
  lemma {:induction false} CountForPositive(items: seq<RoadmapItem>, postId: int)
    ensures CountFor(items, postId) > 0 <==> exists i :: 0 <= i < |items| && items[i].feedbackPostId == postId
  {
    if items != [] {
      CountForPositive(items[1..], postId);
      if CountFor(items[1..], postId) > 0 {
        var i :| 0 <= i < |items[1..]| && items[1..][i].feedbackPostId == postId;
        assert items[i + 1].feedbackPostId == postId;
      }
      if exists i :: 0 <= i < |items| && items[i].feedbackPostId == postId {
        var i :| 0 <= i < |items| && items[i].feedbackPostId == postId;
        if i > 0 {
          assert items[1..][i - 1].feedbackPostId == postId;
        }
      }
    }
  }

  /** After the upsert the post has exactly one item if it had none, and
      as many as before otherwise. */
  lemma UpsertCount(items: seq<RoadmapItem>, postId: int, stage: string, position: int, today: int)
    ensures CountFor(Upsert(items, postId, stage, position, today), postId) == Max(1, CountFor(items, postId))
  {
    var k := IndexOfPost(items, postId);
    CountForPositive(items, postId);
    if k == -1 {
      var n := RoadmapItem(NextId(ItemIds(items)), postId, stage, position, EstimatedDate(stage, today));
      CountForAppend(items, n, postId);
    } else {
      var n := items[k].(stage := stage, position := position, estimatedDate := EstimatedDate(stage, today));
      CountForUpdate(items, k, n, postId);
    }
  }

  /** Upserting the same post twice leaves exactly as many items for it as
      upserting once. */
  lemma {:induction false} UpsertIdempotentInCount(items: seq<RoadmapItem>, postId: int,
                                                  stage1: string, position1: int,
                                                  stage2: string, position2: int, today: int)
    ensures var once := Upsert(items, postId, stage1, position1, today);
      CountFor(Upsert(once, postId, stage2, position2, today), postId) == CountFor(once, postId)
  {
    var once := Upsert(items, postId, stage1, position1, today);
    UpsertCount(items, postId, stage1, position1, today);
    UpsertCount(once, postId, stage2, position2, today);
  }

  /** No post has two items. */
  predicate OneItemPerPost(items: seq<RoadmapItem>)
  {
    forall i, j :: 0 <= i < j < |items| ==> items[i].feedbackPostId != items[j].feedbackPostId
  }

  /** The upsert keeps at most one item per post. */
  lemma UpsertKeepsOneItemPerPost(items: seq<RoadmapItem>, postId: int, stage: string, position: int, today: int)
    requires OneItemPerPost(items)
    ensures OneItemPerPost(Upsert(items, postId, stage, position, today))
  {
    UpsertEffect(items, postId, stage, position, today);
  }

  // ---------------------------------------------------------------------
  // The store

  /** The mock store: the module-level `roadmapItems` array. */
  class RoadmapStore {
    var items: seq<RoadmapItem>

    constructor (initial: seq<RoadmapItem>)
      ensures items == initial
    {
      items := initial;
    }

    /** `getAll()` against the feedback store: the board of the joinable
        items; it never fails. */
    method GetAll(feedback: FeedbackService.FeedbackStore) returns (b: Board)
      ensures b == BoardOf(items, feedback.posts)
    {
      b := Group(Join(items, feedback.posts));
    }

    /** `updateStage(postId, newStage, newPosition = 1)` on the given day. */
    method UpdateStage(postId: int, newStage: string, today: int, newPosition: int := 1) returns (item: RoadmapItem)
      modifies this
      ensures items == Upsert(old(items), postId, newStage, newPosition, today)
      ensures item.feedbackPostId == postId && item.stage == newStage && item.position == newPosition
      ensures item.estimatedDate == EstimatedDate(newStage, today)
      ensures item == items[if IndexOfPost(old(items), postId) == -1 then |old(items)| else IndexOfPost(old(items), postId)]
    {
      var k := IndexOfPost(items, postId);
      if k == -1 {
        item := RoadmapItem(NextId(ItemIds(items)), postId, newStage, newPosition, EstimatedDate(newStage, today));
        items := items + [item];
      } else {
        item := items[k].(stage := newStage, position := newPosition, estimatedDate := EstimatedDate(newStage, today));
        items := items[k := item];
      }
    }

    /** `updatePosition(id, newPosition)`. */
    method UpdatePosition(id: int, newPosition: int) returns (r: Result<RoadmapItem>)
      modifies this
      ensures var k := IndexOfItem(old(items), id);
        && (k == -1 ==> r == Err(NotFound(id)) && items == old(items))
        && (k >= 0 ==> items == old(items)[k := old(items)[k].(position := newPosition)] && r == Ok(items[k]))
    {
      var k := IndexOfItem(items, id);
      if k == -1 {
        r := Err(NotFound(id));
        return;
      }
      items := items[k := items[k].(position := newPosition)];
      r := Ok(items[k]);
    }

    /** `getById(id)`: the item joined to its post. Unlike the board, a
        missing post is an error here. */
    method GetById(id: int, feedback: FeedbackService.FeedbackStore) returns (r: Result<JoinedItem>)
      ensures var k := IndexOfItem(items, id);
        && (k == -1 <==> r == Err(NotFound(id)))
        && (k >= 0 ==> (Lookup(feedback.posts, items[k]).None? <==>
                          r == Err(AssociatedPostMissing(items[k].feedbackPostId))))
        && (r.Ok? <==> k >= 0 && Lookup(feedback.posts, items[k]).Some?)
        && (r.Ok? ==> Some(r.value) == Lookup(feedback.posts, items[k]))
    {
      var k := IndexOfItem(items, id);
      if k == -1 {
        r := Err(NotFound(id));
        return;
      }
      var post := feedback.GetById(items[k].feedbackPostId);
      if post.Err? {
        r := Err(AssociatedPostMissing(items[k].feedbackPostId));
      } else {
        r := Ok(JoinedItem(items[k], post.value));
      }
    }

    /** `delete(id)`: removes the one item and returns it. */
    method Delete(id: int) returns (r: Result<RoadmapItem>)
      modifies this
      ensures var k := IndexOfItem(old(items), id);
        && (k == -1 ==> r == Err(NotFound(id)) && items == old(items))
        && (k >= 0 ==> r == Ok(old(items)[k]) && items == RemoveAt(old(items), k))
    {
      var k := IndexOfItem(items, id);
      if k == -1 {
        r := Err(NotFound(id));
        return;
      }
      r := Ok(items[k]);
      items := RemoveAt(items, k);
    }
  }
}
