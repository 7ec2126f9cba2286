/** The feedback post store and its query engine
    (src/services/api/feedbackService.js). The module-level `posts` array
    becomes the field of a `FeedbackStore` object; `getAll` and
    `getVotedPosts` are functions of that field. */
module FeedbackService {
  import opened Common
  import opened Lists
  import opened Text

  datatype Post = Post(
    id: int,
    title: string,
    description: string,   // rich text (HTML)
    category: string,
    status: string,        // "under-review" | "planned" | "in-progress" | "completed"
    authorName: string,
    isAnonymous: bool,
    images: seq<string>,   // encoded image payloads
    voteCount: int,
    commentCount: int,
    createdAt: int,        // timestamps as integers
    updatedAt: int)

  /** The fields a caller hands to `create`; `status` and the counts are
      here only to show that `create` overrides them. */
  datatype PostDraft = PostDraft(
    title: string,
    description: string,
    category: string,
    authorName: string,
    isAnonymous: bool,
    images: Option<seq<string>>,
    status: Option<string>,
    voteCount: Option<int>,
    commentCount: Option<int>)

  /** The fields a caller hands to `update`; None means the key is absent. */
  datatype PostPatch = PostPatch(
    title: Option<string>,
    description: Option<string>,
    category: Option<string>,
    status: Option<string>,
    authorName: Option<string>,
    isAnonymous: Option<bool>,
    images: Option<seq<string>>,
    voteCount: Option<int>,
    commentCount: Option<int>,
    createdAt: Option<int>)

  /** The filter object of `getAll`. An empty `sortBy` stands for a missing
      or empty key, which the source treats as "do not sort". */
  datatype Filters = Filters(categories: seq<string>, statuses: seq<string>, search: string, sortBy: string)

  /** `getAll(filters = {})`. */
  const NoFilters := Filters([], [], "", "")

  // ---------------------------------------------------------------------
  // Query engine

  /** Case-insensitive substring match on the title or the description. */
  predicate MatchesSearch(p: Post, search: string)
  {
    var term := Lower(search);
    Contains(Lower(p.title), term) || Contains(Lower(p.description), term)
  }

  /** The three filters of `getAll`, each applied only when its part of the
      filter object is non-empty, one after the other. */
  function FilterPosts(posts: seq<Post>, f: Filters): seq<Post>
  {
    var byCategory := if |f.categories| > 0 then Filter(posts, (p: Post) => p.category in f.categories) else posts;
    var byStatus := if |f.statuses| > 0 then Filter(byCategory, (p: Post) => p.status in f.statuses) else byCategory;
    if f.search != "" then Filter(byStatus, (p: Post) => MatchesSearch(p, f.search)) else byStatus
  }

  /** Reference definition of the filter: each part is an OR over its list,
      and the parts combine with AND. */
  predicate Keeps(f: Filters, p: Post)
  {
    && (f.categories == [] || p.category in f.categories)
    && (f.statuses == [] || p.status in f.statuses)
    && (f.search == "" || MatchesSearch(p, f.search))
  }

  function TrendingScore(p: Post): int
  {
    p.voteCount + 2 * p.commentCount
  }

  /** The key each `sortBy` mode sorts on in ascending order: the comparator
      `(a, b) => f(b) - f(a)` sorts descending on f, which is ascending on -f.
      Any other non-empty mode falls back to trending. */
  function SortKey(sortBy: string): Post -> int
  {
    if sortBy == "votes" then (p: Post) => -p.voteCount
    else if sortBy == "newest" then (p: Post) => -p.createdAt
    else if sortBy == "oldest" then (p: Post) => p.createdAt
    else (p: Post) => -TrendingScore(p)
  }

  /** `getAll(filters)` on a copy of the store. */
  function Query(posts: seq<Post>, f: Filters): seq<Post>
  {
    var filtered := FilterPosts(posts, f);
    if f.sortBy == "" then filtered else SortByKey(filtered, SortKey(f.sortBy))
  }

  /** The chain of filters is one filter with the reference predicate. */
  lemma FilterPostsIsKeeps(posts: seq<Post>, f: Filters)
    ensures FilterPosts(posts, f) == Filter(posts, (p: Post) => Keeps(f, p))
  {
    var c1 := (p: Post) => f.categories == [] || p.category in f.categories;
    var c2 := (p: Post) => f.statuses == [] || p.status in f.statuses;
    var c3 := (p: Post) => f.search == "" || MatchesSearch(p, f.search);
    var c12 := (p: Post) => c1(p) && c2(p);
    var keeps := (p: Post) => Keeps(f, p);
    var s1 := if |f.categories| > 0 then Filter(posts, (p: Post) => p.category in f.categories) else posts;
    if |f.categories| > 0 {
      FilterExt(posts, (p: Post) => p.category in f.categories, c1);
    } else {
      FilterAll(posts, c1);
    }
    var s2 := if |f.statuses| > 0 then Filter(s1, (p: Post) => p.status in f.statuses) else s1;
    if |f.statuses| > 0 {
      FilterExt(s1, (p: Post) => p.status in f.statuses, c2);
    } else {
      FilterAll(s1, c2);
    }
    if f.search != "" {
      FilterExt(s2, (p: Post) => MatchesSearch(p, f.search), c3);
    } else {
      FilterAll(s2, c3);
    }
    FilterFilter(posts, c1, c2, c12);
    FilterFilter(posts, c12, c3, keeps);
  }

  /** `getAll` keeps exactly the posts that pass every filter, each as often
      as it occurs in the store; without sortBy it keeps store order. */
  lemma QueryContents(posts: seq<Post>, f: Filters)
    ensures forall p :: p in Query(posts, f) <==> p in posts && Keeps(f, p)
    ensures forall p :: multiset(Query(posts, f))[p] == if Keeps(f, p) then multiset(posts)[p] else 0
    ensures f.sortBy == "" ==> Query(posts, f) == Filter(posts, (p: Post) => Keeps(f, p))
  {
    FilterPostsIsKeeps(posts, f);
    var filtered := Filter(posts, (p: Post) => Keeps(f, p));
    if f.sortBy != "" {
      SortByKeyMembers(filtered, SortKey(f.sortBy));
      assert multiset(Query(posts, f)) == multiset(filtered);
    }
  }

  /** Each sort mode orders the result as the source's comparator asks. */
  lemma QuerySorted(posts: seq<Post>, f: Filters)
    ensures var r := Query(posts, f);
      && (f.sortBy == "votes" ==> forall i, j :: 0 <= i < j < |r| ==> r[i].voteCount >= r[j].voteCount)
      && (f.sortBy == "newest" ==> forall i, j :: 0 <= i < j < |r| ==> r[i].createdAt >= r[j].createdAt)
      && (f.sortBy == "oldest" ==> forall i, j :: 0 <= i < j < |r| ==> r[i].createdAt <= r[j].createdAt)
      && (f.sortBy !in {"", "votes", "newest", "oldest"} ==>
            forall i, j :: 0 <= i < j < |r| ==> TrendingScore(r[i]) >= TrendingScore(r[j]))
  {
    if f.sortBy != "" {
      SortByKeySorted(FilterPosts(posts, f), SortKey(f.sortBy));
    }
  }

  /** The sort is stable: posts that tie on the sort key stay in store order. */
  lemma QueryStable(posts: seq<Post>, f: Filters, k: int)
    requires f.sortBy != ""
    ensures WithKey(Query(posts, f), SortKey(f.sortBy), k)
         == WithKey(Filter(posts, (p: Post) => Keeps(f, p)), SortKey(f.sortBy), k)
  {
    FilterPostsIsKeeps(posts, f);
    SortByKeyStable(FilterPosts(posts, f), SortKey(f.sortBy), k);
  }

  /** Trending ranks a post with 10 votes and 3 comments (score 16) above one
      with 15 votes and no comments (score 15). */
  lemma TrendingPrefersComments(a: Post, b: Post)
    requires a.voteCount == 10 && a.commentCount == 3
    requires b.voteCount == 15 && b.commentCount == 0
    ensures Query([b, a], Filters([], [], "", "trending")) == [a, b]
  {
    var key := SortKey("trending");
    assert key(a) == -16 && key(b) == -15;
    assert SortByKey([a], key) == [a] by {
      assert [a][1..] == [];
    }
    assert [b, a][1..] == [a];
    assert Insert(b, [a], key) == [a] + Insert(b, [], key);
  }

  /** `getVotedPosts`: the posts whose id is in the voted list, in store order. */
  function VotedPosts(posts: seq<Post>, voted: seq<int>): (r: seq<Post>)
    ensures forall p :: p in r <==> p in posts && p.id in voted
  {
    Filter(posts, (p: Post) => p.id in voted)
  }

  // ---------------------------------------------------------------------
  // Store operations

  function Ids(posts: seq<Post>): (ids: seq<int>)
    ensures |ids| == |posts|
    ensures forall i :: 0 <= i < |posts| ==> ids[i] == posts[i].id
  {
    seq(|posts|, i requires 0 <= i < |posts| => posts[i].id)
  }

  /** `posts.findIndex((p: Post) => p.Id === parseInt(id))`. */
  function IndexOfId(posts: seq<Post>, id: int): (r: int)
    ensures -1 <= r < |posts|
    ensures r == -1 <==> forall i :: 0 <= i < |posts| ==> posts[i].id != id
    ensures 0 <= r ==> posts[r].id == id && forall i :: 0 <= i < r ==> posts[i].id != id
  {
    FindIndex(posts, (p: Post) => p.id == id)
  }

  predicate DistinctIds(posts: seq<Post>)
  {
    forall i, j :: 0 <= i < j < |posts| ==> posts[i].id != posts[j].id
  }

  /** The record `create` builds: the draft's fields, with the id, counts,
      status, images default and timestamps that `create` forces. */
  function NewPost(draft: PostDraft, id: int, now: int): (p: Post)
    ensures p.id == id
    ensures p.voteCount == 0 && p.commentCount == 0 && p.status == "under-review"
    ensures p.images == if draft.images.Some? then draft.images.value else []
    ensures p.createdAt == now && p.updatedAt == now
    ensures p.title == draft.title && p.description == draft.description && p.category == draft.category
    ensures p.authorName == draft.authorName && p.isAnonymous == draft.isAnonymous
  {
    Post(id, draft.title, draft.description, draft.category, "under-review",
         draft.authorName, draft.isAnonymous, Or(draft.images, []), 0, 0, now, now)
  }

  /** Appending a post with the next id keeps ids distinct. */
  lemma CreateKeepsIdsDistinct(posts: seq<Post>, draft: PostDraft, now: int)
    requires DistinctIds(posts)
    ensures DistinctIds(posts + [NewPost(draft, NextId(Ids(posts)), now)])
  {
    var p := NewPost(draft, NextId(Ids(posts)), now);
    forall i | 0 <= i < |posts| ensures posts[i].id != p.id {
      assert posts[i].id == Ids(posts)[i];
      assert posts[i].id in Ids(posts);
    }
  }

  /** The `{...post, ...updateData, images, updatedAt}` merge of `update`. */
  function ApplyPatch(p: Post, patch: PostPatch, now: int): (r: Post)
    ensures r.id == p.id
    ensures Overrides(patch.title, p.title, r.title) && Overrides(patch.description, p.description, r.description)
    ensures Overrides(patch.category, p.category, r.category) && Overrides(patch.status, p.status, r.status)
    ensures Overrides(patch.authorName, p.authorName, r.authorName) && Overrides(patch.isAnonymous, p.isAnonymous, r.isAnonymous)
    ensures Overrides(patch.images, p.images, r.images)
    ensures Overrides(patch.voteCount, p.voteCount, r.voteCount) && Overrides(patch.commentCount, p.commentCount, r.commentCount)
    ensures Overrides(patch.createdAt, p.createdAt, r.createdAt)
    ensures r.updatedAt == now
  {
    Post(p.id, Or(patch.title, p.title), Or(patch.description, p.description),
         Or(patch.category, p.category), Or(patch.status, p.status),
         Or(patch.authorName, p.authorName), Or(patch.isAnonymous, p.isAnonymous),
         Or(patch.images, p.images), Or(patch.voteCount, p.voteCount),
         Or(patch.commentCount, p.commentCount), Or(patch.createdAt, p.createdAt), now)
  }

  /** An empty patch only touches `updatedAt`; applying a patch twice is
      the same as applying it once. */
  lemma ApplyPatchLaws(p: Post, patch: PostPatch, now: int)
    ensures ApplyPatch(p, PostPatch(None, None, None, None, None, None, None, None, None, None), now)
         == p.(updatedAt := now)
    ensures ApplyPatch(ApplyPatch(p, patch, now), patch, now) == ApplyPatch(p, patch, now)
  {
  }

  /** The new vote count: one up or one down, never below zero. */
  function VotedCount(count: int, increment: bool): (r: int)
    ensures r >= 0
    ensures count >= 0 && increment ==> r == count + 1
    ensures count > 0 && !increment ==> r == count - 1
    ensures count <= 0 && !increment ==> r == 0
  {
    Max(0, count + (if increment then 1 else -1))
  }

  /** An up-vote followed by a down-vote restores a non-negative count,
      whereas a down-vote at zero is absorbed by the floor. */
  lemma VoteRoundTrip(count: int)
    requires count >= 0
    ensures VotedCount(VotedCount(count, true), false) == count
    ensures VotedCount(VotedCount(0, false), true) == 1
  {
  }

  /** Deleting the post with an id leaves no post with that id when ids are
      distinct. */
  lemma DeleteRemovesId(posts: seq<Post>, id: int)
    requires DistinctIds(posts)
    requires IndexOfId(posts, id) >= 0
    ensures forall q :: q in RemoveAt(posts, IndexOfId(posts, id)) ==> q.id != id
    ensures DistinctIds(RemoveAt(posts, IndexOfId(posts, id)))
  {
    var k := IndexOfId(posts, id);
    var r := RemoveAt(posts, k);
    forall q | q in r ensures q.id != id {
      var j :| 0 <= j < |r| && r[j] == q;
      if j < k { assert r[j] == posts[j]; } else { assert r[j] == posts[j + 1]; }
    }
    forall i, j | 0 <= i < j < |r| ensures r[i].id != r[j].id {
      var i' := if i < k then i else i + 1;
      var j' := if j < k then j else j + 1;
      assert r[i] == posts[i'] && r[j] == posts[j'];
    }
  }

  /** The mock store: the module-level `posts` array. */
  class FeedbackStore {
    var posts: seq<Post>

    constructor (initial: seq<Post>)
      ensures posts == initial
    {
      posts := initial;
    }

    /** `getAll(filters)`: filters and sorts a copy; the store is untouched. */
    method GetAll(f: Filters := NoFilters) returns (r: seq<Post>)
      ensures forall p :: p in r <==> p in posts && Keeps(f, p)
      ensures forall p :: multiset(r)[p] == if Keeps(f, p) then multiset(posts)[p] else 0
      ensures r == Query(posts, f)
    {
      r := Query(posts, f);
      QueryContents(posts, f);
    }

    /** `getVotedPosts()`, with the stored voted list passed in. */
    method GetVotedPosts(voted: seq<int>) returns (r: seq<Post>)
      ensures forall p :: p in r <==> p in posts && p.id in voted
      ensures r == VotedPosts(posts, voted)
    {
      r := VotedPosts(posts, voted);
    }

    /** `getById(id)`: the first post with the id, or not-found. */
    method GetById(id: int) returns (r: Result<Post>)
      ensures r.Err? <==> forall i :: 0 <= i < |posts| ==> posts[i].id != id
      ensures r.Err? ==> r.error == NotFound(id)
      ensures r.Ok? ==> r.value == posts[IndexOfId(posts, id)] && r.value.id == id
    {
      var i := IndexOfId(posts, id);
      if i == -1 {
        r := Err(NotFound(id));
      } else {
        r := Ok(posts[i]);
      }
    }

    /** `create(postData)`: appends one post with the next id. */
    method Create(draft: PostDraft, now: int) returns (p: Post)
      modifies this
      ensures p == NewPost(draft, NextId(Ids(old(posts))), now)
      ensures p.id !in Ids(old(posts))
      ensures posts == old(posts) + [p]
    {
      var id := NextId(Ids(posts));
      p := NewPost(draft, id, now);
      posts := posts + [p];
    }

    /** `update(id, updateData)`: merges the patch into the one post. */
    method Update(id: int, patch: PostPatch, now: int) returns (r: Result<Post>)
      modifies this
      ensures var k := IndexOfId(old(posts), id);
        && (k == -1 ==> r == Err(NotFound(id)) && posts == old(posts))
        && (k >= 0 ==> posts == old(posts)[k := ApplyPatch(old(posts)[k], patch, now)] && r == Ok(posts[k]))
    {
      var k := IndexOfId(posts, id);
      if k == -1 {
        r := Err(NotFound(id));
        return;
      }
      posts := posts[k := ApplyPatch(posts[k], patch, now)];
      r := Ok(posts[k]);
    }

    /** `vote(id, increment = true)`: moves one post's count by one,
      clamped at zero. */
    method Vote(id: int, increment: bool := true) returns (r: Result<Post>)
      modifies this
      ensures var k := IndexOfId(old(posts), id);
        && (k == -1 ==> r == Err(NotFound(id)) && posts == old(posts))
        && (k >= 0 ==>
              && posts == old(posts)[k := old(posts)[k].(voteCount := VotedCount(old(posts)[k].voteCount, increment))]
              && r == Ok(posts[k]))
    {
      var k := IndexOfId(posts, id);
      if k == -1 {
        r := Err(NotFound(id));
        return;
      }
      var count := posts[k].voteCount + (if increment then 1 else -1);
      count := Max(0, count);
      posts := posts[k := posts[k].(voteCount := count)];
      r := Ok(posts[k]);
    }

    /** `delete(id)`: removes the one post and returns it. */
    method Delete(id: int) returns (r: Result<Post>)
      modifies this
      ensures var k := IndexOfId(old(posts), id);
        && (k == -1 ==> r == Err(NotFound(id)) && posts == old(posts))
        && (k >= 0 ==> r == Ok(old(posts)[k]) && posts == RemoveAt(old(posts), k))
    {
      var k := IndexOfId(posts, id);
      if k == -1 {
        r := Err(NotFound(id));
        return;
      }
      r := Ok(posts[k]);
      posts := RemoveAt(posts, k);
    }
  }
}
