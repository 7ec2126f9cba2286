/** The voting logic of the feedback board page
    (src/components/pages/FeedbackBoard.jsx). The page's state, the list of
    ids kept in local storage and the set of posts with a vote in flight
    become fields of a `Board` object. Because `handleVote` awaits the
    request, it is split at the await into `BeginVote` and `FinishVote`, so
    that a second click during the request can be modelled. */
module FeedbackBoard {
  import opened Common
  import opened Lists
  import opened FeedbackService
  import FilterSidebar

  /** The stored voted-id list after a successful vote: the id is pushed on
      an up-vote; on a down-vote its first occurrence is spliced out, if any. */
  function LedgerAfter(voted: seq<int>, id: int, increment: bool): (r: seq<int>)
    ensures increment ==> r == voted + [id]
    ensures !increment ==> multiset(r) == multiset(voted) - multiset{id}
    ensures !increment && id !in voted ==> r == voted
  {
    if increment then voted + [id] else RemoveFirst(voted, id)
  }

  /** A down-vote splices out the first occurrence of the id and keeps the
      ids before and after it in their order. */
  lemma LedgerDownVote(voted: seq<int>, id: int)
    requires id in voted
    ensures exists i :: 0 <= i < |voted| && voted[i] == id && id !in voted[..i] &&
                        LedgerAfter(voted, id, false) == voted[..i] + voted[i + 1..]
  {
    RemoveFirstSplices(voted, id);
  }

  /** No id is stored twice. */
  predicate NoDuplicates(voted: seq<int>)
  {
    forall i, j :: 0 <= i < j < |voted| ==> voted[i] != voted[j]
  }

  /** A vote in the direction the board picks (up when the id is not stored,
      down when it is) flips whether the id is stored, and keeps the list
      free of duplicates. */
  lemma LedgerFlips(voted: seq<int>, id: int)
    requires NoDuplicates(voted)
    ensures var r := LedgerAfter(voted, id, id !in voted);
      (id in r <==> id !in voted) && NoDuplicates(r) && (forall x :: x != id ==> (x in r <==> x in voted))
  {
    var r := LedgerAfter(voted, id, id !in voted);
    if id in voted {
      RemoveFirstKeepsNoDuplicates(voted, id);
      assert forall x :: x in r <==> x in multiset(r);
    } else {
      forall i, j | 0 <= i < j < |r| ensures r[i] != r[j] {
        if j == |voted| { assert r[j] == id && r[i] == voted[i]; }
      }
    }
  }

  /** Splicing out the first occurrence from a list without duplicates
      removes the value altogether and creates no duplicate. */
  lemma {:induction false} RemoveFirstKeepsNoDuplicates(s: seq<int>, x: int)
    requires NoDuplicates(s)
    ensures NoDuplicates(RemoveFirst(s, x)) && x !in RemoveFirst(s, x)
  {
    if s != [] {
      var t := s[1..];
      assert NoDuplicates(t) by {
        forall i, j | 0 <= i < j < |t| ensures t[i] != t[j] { assert t[i] == s[i + 1] && t[j] == s[j + 1]; }
      }
      assert s[0] !in t by {
        forall m | 0 <= m < |t| ensures t[m] != s[0] { assert t[m] == s[m + 1]; }
      }
      RemoveFirstKeepsNoDuplicates(t, x);
      if s[0] != x {
        var rt := RemoveFirst(t, x);
        assert RemoveFirst(s, x) == [s[0]] + rt;
        NoDuplicatesCons(s[0], rt);
      }
    }
  }

  lemma NoDuplicatesCons(h: int, t: seq<int>)
    requires NoDuplicates(t) && h !in t
    ensures NoDuplicates([h] + t)
  {
    var r := [h] + t;
    forall i, j | 0 <= i < j < |r| ensures r[i] != r[j] {
      assert r[j] == t[j - 1];
      if i > 0 { assert r[i] == t[i - 1]; }
    }
  }

  /** An up-vote followed by a down-vote gives back the stored list. */
  lemma LedgerRoundTrip(voted: seq<int>, id: int)
    requires id !in voted
    ensures LedgerAfter(LedgerAfter(voted, id, true), id, false) == voted
  {
    RemoveFirstAppended(voted, id);
  }

  /** Two votes on different posts p and q overlap: both handlers read the
      stored list `voted` before either request returns, and p's returns
      first. Each handler writes back the copy it read, so q's write replaces
      p's. This is the list FeedbackBoard.jsx leaves behind. */
  function OverlappedAsWritten(voted: seq<int>, p: int, q: int): seq<int>
  {
    LedgerAfter(voted, q, q !in voted)   // written over LedgerAfter(voted, p, p !in voted)
  }

  /** The same two overlapping votes when each handler re-reads the stored
      list as its request returns, keeping the direction it read before. */
  function OverlappedRereading(voted: seq<int>, p: int, q: int): seq<int>
  {
    LedgerAfter(LedgerAfter(voted, p, p !in voted), q, q !in voted)
  }

  /** As written, the first vote to return is lost from the list: p's stored
      membership is what it was before, although p's count was changed, so
      the next click on p votes in the same direction again. */
  lemma OverlappingVotesLoseUpdate(voted: seq<int>, p: int, q: int)
    requires p != q && NoDuplicates(voted)
    ensures p in OverlappedAsWritten(voted, p, q) <==> p in voted
    ensures q in OverlappedAsWritten(voted, p, q) <==> q !in voted
  {
    LedgerFlips(voted, q);
  }

  /** Re-reading the list keeps both votes: each post's stored membership
      flips, and the list stays free of duplicates. */
  lemma OverlappingVotesKeepBoth(voted: seq<int>, p: int, q: int)
    requires p != q && NoDuplicates(voted)
    ensures var r := OverlappedRereading(voted, p, q);
      && (p in r <==> p !in voted) && (q in r <==> q !in voted) && NoDuplicates(r)
  {
    var mid := LedgerAfter(voted, p, p !in voted);
    LedgerFlips(voted, p);
    assert q in mid <==> q in voted;
    LedgerFlips(mid, q);
  }

  /** `prev.map(post => post.Id === postId ? updatedPost : post)`. */
  function ReplaceById(posts: seq<Post>, id: int, updated: Post): (r: seq<Post>)
    ensures |r| == |posts|
  {
    seq(|posts|, i requires 0 <= i < |posts| => if posts[i].id == id then updated else posts[i])
  }

  /** Replacing by id touches only the posts with that id: those become the
      updated post and the rest stay where they were. */
  lemma ReplaceByIdEffect(posts: seq<Post>, id: int, updated: Post)
    ensures forall i :: 0 <= i < |posts| && posts[i].id != id ==> ReplaceById(posts, id, updated)[i] == posts[i]
    ensures forall i :: 0 <= i < |posts| && posts[i].id == id ==> ReplaceById(posts, id, updated)[i] == updated
    ensures (forall i :: 0 <= i < |posts| ==> posts[i].id != id) ==> ReplaceById(posts, id, updated) == posts
  {
  }

  /** `hasActiveFilters` of the board: unlike the sidebar's, a non-empty
      search counts. */
  predicate BoardHasActiveFilters(f: Filters)
  {
    |f.categories| > 0 || |f.statuses| > 0 || f.search != ""
  }

  /** The board's indicator is the sidebar's plus the search box. */
  lemma BoardActiveIsSidebarOrSearch(f: Filters)
    ensures BoardHasActiveFilters(f) <==> FilterSidebar.SidebarHasActiveFilters(f) || f.search != ""
    ensures BoardHasActiveFilters(f) && !FilterSidebar.SidebarHasActiveFilters(f) <==>
              f.categories == [] && f.statuses == [] && f.search != ""
  {
  }

  /** The page state that `handleVote` reads and writes. */
  class Board {
    var posts: seq<Post>          // the listed posts
    var voted: seq<int>           // the ids stored under "votedPosts"
    var votingPosts: set<int>     // posts with a vote request in flight

    constructor (listed: seq<Post>, stored: seq<int>)
      ensures posts == listed && voted == stored && votingPosts == {}
    {
      posts := listed;
      voted := stored;
      votingPosts := {};
    }

    /** `handleVote(postId)` up to the request: a post with a vote in flight
        is ignored; otherwise it is marked, the stored list is read, and the
        direction is taken from that copy. */
    method BeginVote(postId: int) returns (started: bool, increment: bool, snapshot: seq<int>)
      modifies this
      ensures started <==> postId !in old(votingPosts)
      ensures started ==> votingPosts == old(votingPosts) + {postId}
      ensures started ==> snapshot == voted && increment == (postId !in snapshot)
      ensures !started ==> votingPosts == old(votingPosts)
      ensures posts == old(posts) && voted == old(voted)
    {
      if postId in votingPosts {
        return false, false, [];
      }
      votingPosts := votingPosts + {postId};
      started := true;
      snapshot := voted;
      increment := postId !in snapshot;
    }

    /** `handleVote(postId)` after the request: on success the returned post
        replaces the listed one, and the copy of the stored list read before
        the request is updated and written back, replacing whatever the list
        holds now; on failure neither changes. Either way the post is no
        longer in flight. */
    method FinishVote(postId: int, increment: bool, snapshot: seq<int>, response: Result<Post>)
      modifies this
      ensures votingPosts == old(votingPosts) - {postId}
      ensures response.Ok? ==> posts == ReplaceById(old(posts), postId, response.value)
      ensures response.Ok? ==> voted == LedgerAfter(snapshot, postId, increment)
      ensures response.Err? ==> posts == old(posts) && voted == old(voted)
    {
      if response.Ok? {
        posts := ReplaceById(posts, postId, response.value);
        var written := snapshot;
        if increment {
          written := written + [postId];
        } else {
          written := RemoveFirst(written, postId);
        }
        voted := written;
      }
      votingPosts := votingPosts - {postId};
    }

    /** The corrected second half: the stored list is read again when the
        request returns, so a vote that returned in between is kept. */
    method FinishVoteRereading(postId: int, increment: bool, response: Result<Post>)
      modifies this
      ensures votingPosts == old(votingPosts) - {postId}
      ensures response.Ok? ==> posts == ReplaceById(old(posts), postId, response.value)
      ensures response.Ok? ==> voted == LedgerAfter(old(voted), postId, increment)
      ensures response.Err? ==> posts == old(posts) && voted == old(voted)
    {
      if response.Ok? {
        posts := ReplaceById(posts, postId, response.value);
        if increment {
          voted := voted + [postId];
        } else {
          voted := RemoveFirst(voted, postId);
        }
      }
      votingPosts := votingPosts - {postId};
    }

    /** Two clicks on different posts whose requests overlap, p's returning
        first, as the page runs them: the list ends as q's handler wrote it,
        so p's entry is lost. */
    method OverlappingVotes(p: int, q: int, updatedP: Post, updatedQ: Post)
      requires p != q && p !in votingPosts && q !in votingPosts
      modifies this
      ensures posts == ReplaceById(ReplaceById(old(posts), p, updatedP), q, updatedQ)
      ensures voted == OverlappedAsWritten(old(voted), p, q)
      ensures votingPosts == old(votingPosts)
    {
      var startedP, incrementP, snapshotP := BeginVote(p);
      var startedQ, incrementQ, snapshotQ := BeginVote(q);
      FinishVote(p, incrementP, snapshotP, Ok(updatedP));
      FinishVote(q, incrementQ, snapshotQ, Ok(updatedQ));
    }

    /** A whole `handleVote(postId)` with no other click in between, against
        the feedback store. */
    method HandleVote(postId: int, store: FeedbackStore)
      modifies this, store
      ensures postId in old(votingPosts) ==>
                posts == old(posts) && voted == old(voted) && store.posts == old(store.posts)
      ensures votingPosts == old(votingPosts)
      ensures postId !in old(votingPosts) ==>
        var k := IndexOfId(old(store.posts), postId);
        var increment := postId !in old(voted);
        && (k == -1 ==> posts == old(posts) && voted == old(voted) && store.posts == old(store.posts))
        && (k >= 0 ==>
              && store.posts == old(store.posts)[k := old(store.posts)[k].(voteCount := VotedCount(old(store.posts)[k].voteCount, increment))]
              && posts == ReplaceById(old(posts), postId, store.posts[k])
              && voted == LedgerAfter(old(voted), postId, increment))
    {
      var started, increment, snapshot := BeginVote(postId);
      if !started {
        return;
      }
      var response := store.Vote(postId, increment);
      FinishVote(postId, increment, snapshot, response);
    }
  }
}
