/** The posts slice: the global feed (an ordered sequence of posts) with its
    pagination bookkeeping, and the reducers the views dispatch on it. */
module PostsSlice {
  import opened Wrappers

  /** The embedded summary of a post's author. */
  datatype Author = Author(id: string, username: string, avatar: Option<string>)

  /** A post. Counters are unbounded integers: the reducers never clamp them. */
  datatype Post = Post(
    id: string,
    author: Author,
    content: string,
    createdAt: string,
    likesCount: int,
    commentsCount: int,
    isLiked: bool)

  /** `Partial<Post>`: a present field overwrites, an absent one keeps the old value. */
  datatype PostPatch = PostPatch(
    id: Option<string>,
    author: Option<Author>,
    content: Option<string>,
    createdAt: Option<string>,
    likesCount: Option<int>,
    commentsCount: Option<int>,
    isLiked: Option<bool>)

  const NoChanges: PostPatch := PostPatch(None, None, None, None, None, None, None)

  /** Every field the patch carries holds the patch's value in `post`. */
  predicate Agrees(updates: PostPatch, post: Post) {
    && (updates.id.Some? ==> updates.id.value == post.id)
    && (updates.author.Some? ==> updates.author.value == post.author)
    && (updates.content.Some? ==> updates.content.value == post.content)
    && (updates.createdAt.Some? ==> updates.createdAt.value == post.createdAt)
    && (updates.likesCount.Some? ==> updates.likesCount.value == post.likesCount)
    && (updates.commentsCount.Some? ==> updates.commentsCount.value == post.commentsCount)
    && (updates.isLiked.Some? ==> updates.isLiked.value == post.isLiked)
  }

  /** Every field the patch leaves out is the same in `before` and `after`. */
  predicate KeepsUnpatched(updates: PostPatch, before: Post, after: Post) {
    && (updates.id.None? ==> after.id == before.id)
    && (updates.author.None? ==> after.author == before.author)
    && (updates.content.None? ==> after.content == before.content)
    && (updates.createdAt.None? ==> after.createdAt == before.createdAt)
    && (updates.likesCount.None? ==> after.likesCount == before.likesCount)
    && (updates.commentsCount.None? ==> after.commentsCount == before.commentsCount)
    && (updates.isLiked.None? ==> after.isLiked == before.isLiked)
  }

  /** The shallow merge `{ ...post, ...updates }`: the patched fields take the
      patch's values, the others keep the post's. */
  function Merge(post: Post, updates: PostPatch): (merged: Post)
    ensures Agrees(updates, merged)
    ensures KeepsUnpatched(updates, post, merged)
  {
    Post(
      updates.id.GetOr(post.id),
      updates.author.GetOr(post.author),
      updates.content.GetOr(post.content),
      updates.createdAt.GetOr(post.createdAt),
      updates.likesCount.GetOr(post.likesCount),
      updates.commentsCount.GetOr(post.commentsCount),
      updates.isLiked.GetOr(post.isLiked))
  }

  /** A merge changes the post exactly when the patch carries some value
      that differs from the post's; the empty patch changes nothing. */
  lemma MergeNoopIff(post: Post, updates: PostPatch)
    ensures Merge(post, NoChanges) == post
    ensures Merge(post, updates) == post <==> Agrees(updates, post)
  {
  }

  /** Merging the same patch again changes nothing more. */
  lemma MergeIdempotent(post: Post, updates: PostPatch)
    ensures Merge(Merge(post, updates), updates) == Merge(post, updates)
  {
  }

  /** `posts.findIndex(post => post.id === id)`: the first index whose post
      carries `id`, or -1 when none does. */
  function FirstIndex(posts: seq<Post>, id: string): (index: int)
    ensures -1 <= index < |posts|
    ensures index == -1 <==> forall k :: 0 <= k < |posts| ==> posts[k].id != id
    ensures index >= 0 ==> posts[index].id == id && forall k :: 0 <= k < index ==> posts[k].id != id
    decreases |posts|
  {
    if |posts| == 0 then -1
    else if posts[0].id == id then 0
    else
      var rest := FirstIndex(posts[1..], id);
      if rest == -1 then -1 else rest + 1
  }

  /** The linear scan behind `findIndex`. */
  method FindIndex(posts: seq<Post>, id: string) returns (index: int)
    ensures -1 <= index < |posts|
    ensures index == -1 <==> forall k :: 0 <= k < |posts| ==> posts[k].id != id
    ensures index >= 0 ==> posts[index].id == id && forall k :: 0 <= k < index ==> posts[k].id != id
    ensures index == FirstIndex(posts, id)
  {
    var i := 0;
    while i < |posts|
      invariant 0 <= i <= |posts|
      invariant forall k :: 0 <= k < i ==> posts[k].id != id
    {
      if posts[i].id == id {
        return i;
      }
      i := i + 1;
    }
    return -1;
  }

  /** The feed after `updatePost(id, updates)`: same length, and every post
      with another id is where it was, unchanged. */
  function Updated(posts: seq<Post>, id: string, updates: PostPatch): (updated: seq<Post>)
    ensures |updated| == |posts|
    ensures forall k :: 0 <= k < |posts| && posts[k].id != id ==> updated[k] == posts[k]
  {
    var index := FirstIndex(posts, id);
    if index == -1 then posts else posts[index := Merge(posts[index], updates)]
  }

  /** An id that no post carries leaves the feed as it was (no error). */
  lemma UpdateMissingIsNoop(posts: seq<Post>, id: string, updates: PostPatch)
    requires forall k :: 0 <= k < |posts| ==> posts[k].id != id
    ensures Updated(posts, id, updates) == posts
  {
  }

  /** For a present id only the FIRST post carrying it is merged with the patch:
      every other index, including later posts with the same id, and the
      length stay as they were. */
  lemma UpdateChangesFirstMatchOnly(posts: seq<Post>, id: string, updates: PostPatch, i: nat)
    requires i < |posts| && posts[i].id == id
    requires forall k :: 0 <= k < i ==> posts[k].id != id
    ensures |Updated(posts, id, updates)| == |posts|
    ensures Updated(posts, id, updates)[i] == Merge(posts[i], updates)
    ensures forall k :: 0 <= k < |posts| && k != i ==> Updated(posts, id, updates)[k] == posts[k]
  {
  }

  /** Applying the same patch twice equals applying it once, provided the
      patch does not move the post to another id. */
  lemma UpdateIdempotent(posts: seq<Post>, id: string, updates: PostPatch)
    requires updates.id == None || updates.id == Some(id)
    ensures Updated(Updated(posts, id, updates), id, updates) == Updated(posts, id, updates)
  {
    var index := FirstIndex(posts, id);
    if index != -1 {
      var once := Updated(posts, id, updates);
      assert once[index].id == id;
      assert forall k :: 0 <= k < index ==> once[k].id != id by {
        assert forall k :: 0 <= k < index ==> once[k] == posts[k];
      }
      assert FirstIndex(once, id) == index;
      MergeIdempotent(posts[index], updates);
    }
  }

  /** `posts.filter(post => post.id !== id)`. */
  function Filtered(posts: seq<Post>, id: string): (kept: seq<Post>)
    ensures |kept| <= |posts|
    ensures forall k :: 0 <= k < |kept| ==> kept[k].id != id
    ensures forall p :: p in kept <==> p in posts && p.id != id
    decreases |posts|
  {
    if |posts| == 0 then []
    else if posts[0].id == id then Filtered(posts[1..], id)
    else [posts[0]] + Filtered(posts[1..], id)
  }

  /** Filtering distributes over concatenation, so the survivors keep their
      relative order. */
  lemma {:induction false} FilteredConcat(front: seq<Post>, back: seq<Post>, id: string)
    ensures Filtered(front + back, id) == Filtered(front, id) + Filtered(back, id)
    decreases |front|
  {
    if |front| == 0 {
      assert front + back == back;
    } else {
      assert (front + back)[1..] == front[1..] + back;
      FilteredConcat(front[1..], back, id);
    }
  }

  /** Every surviving post occurs as often as before; removed ones not at all. */
  lemma {:induction false} FilteredCounts(posts: seq<Post>, id: string, p: Post)
    ensures multiset(Filtered(posts, id))[p] == if p.id == id then 0 else multiset(posts)[p]
    decreases |posts|
  {
    if |posts| > 0 {
      assert posts == [posts[0]] + posts[1..];
      FilteredCounts(posts[1..], id, p);
    }
  }

  /** When no post carries the id, the filter returns the feed itself. */
  lemma {:induction false} FilteredMissingIsNoop(posts: seq<Post>, id: string)
    requires forall k :: 0 <= k < |posts| ==> posts[k].id != id
    ensures Filtered(posts, id) == posts
    decreases |posts|
  {
    if |posts| > 0 {
      FilteredMissingIsNoop(posts[1..], id);
    }
  }

  /** A second `deletePost(id)` is a no-op. */
  lemma FilteredIdempotent(posts: seq<Post>, id: string)
    ensures Filtered(Filtered(posts, id), id) == Filtered(posts, id)
  {
  }

  /** The patch the post card dispatches when the heart is clicked: flip
      `isLiked` and move `likesCount` by one in the matching direction. */
  function LikeToggle(post: Post): (updates: PostPatch)
    ensures Merge(post, updates).isLiked == !post.isLiked
    ensures Merge(post, updates).likesCount == if post.isLiked then post.likesCount - 1 else post.likesCount + 1
    ensures Merge(post, updates).(isLiked := post.isLiked, likesCount := post.likesCount) == post
  {
    NoChanges.(isLiked := Some(!post.isLiked),
               likesCount := Some(if post.isLiked then post.likesCount - 1 else post.likesCount + 1))
  }

  /** Liking and then unliking (each toggle computed from the post as it is
      then shown) restores the post. */
  lemma LikeToggleTwice(post: Post)
    ensures var liked := Merge(post, LikeToggle(post)); Merge(liked, LikeToggle(liked)) == post
  {
  }

  /** The same at the level of the feed: two like-toggles dispatched for the
      first post with an id restore the whole feed. */
  lemma LikeToggleTwiceInFeed(posts: seq<Post>, i: nat)
    requires i < |posts| && forall k :: 0 <= k < i ==> posts[k].id != posts[i].id
    ensures var once := Updated(posts, posts[i].id, LikeToggle(posts[i]));
            |once| == |posts| && Updated(once, posts[i].id, LikeToggle(once[i])) == posts
  {
  }

  /** Sum of the sizes of a run of batches. */
  function TotalSize(batches: seq<seq<Post>>): nat {
    if |batches| == 0 then 0 else |batches[0]| + TotalSize(batches[1..])
  }

  /** The batches one after another. */
  function Flatten(batches: seq<seq<Post>>): (all: seq<Post>)
    ensures |all| == TotalSize(batches)
  {
    if |batches| == 0 then [] else batches[0] + Flatten(batches[1..])
  }

  /** The slice state: `posts`, `isLoading`, `hasMore`, `page`. */
  class PostsState {
    var posts: seq<Post>
    var isLoading: bool
    var hasMore: bool
    var page: int

    /** `initialState`. */
    constructor ()
      ensures posts == [] && !isLoading && hasMore && page == 1
    {
      posts := [];
      isLoading := false;
      hasMore := true;
      page := 1;
    }

    method SetLoading(loading: bool)
      modifies this
      ensures isLoading == loading
      ensures posts == old(posts) && hasMore == old(hasMore) && page == old(page)
    {
      isLoading := loading;
    }

    /** Replaces the whole feed and resets the page. */
    method SetPosts(list: seq<Post>)
      modifies this
      ensures posts == list && page == 1
      ensures isLoading == old(isLoading) && hasMore == old(hasMore)
    {
      posts := list;
      page := 1;
    }

    /** Appends a batch at the end, order kept, and moves to the next page. */
    method AddPosts(batch: seq<Post>)
      modifies this
      ensures posts == old(posts) + batch && page == old(page) + 1
      ensures isLoading == old(isLoading) && hasMore == old(hasMore)
    {
      posts := posts + batch;
      page := page + 1;
    }

    /** Puts one post at the head of the feed. */
    method AddPost(post: Post)
      modifies this
      ensures posts == [post] + old(posts)
      ensures isLoading == old(isLoading) && hasMore == old(hasMore) && page == old(page)
    {
      posts := [post] + posts;
    }

    /** Merges `updates` into the first post carrying `id`, if any. */
    method UpdatePost(id: string, updates: PostPatch)
      modifies this
      ensures posts == Updated(old(posts), id, updates)
      ensures isLoading == old(isLoading) && hasMore == old(hasMore) && page == old(page)
    {
      var index := FindIndex(posts, id);
      if index != -1 {
        posts := posts[index := Merge(posts[index], updates)];
      }
    }

    /** Removes every post carrying `id`. */
    method DeletePost(id: string)
      modifies this
      ensures posts == Filtered(old(posts), id)
      ensures forall k :: 0 <= k < |posts| ==> posts[k].id != id
      ensures isLoading == old(isLoading) && hasMore == old(hasMore) && page == old(page)
    {
      posts := Filtered(posts, id);
    }

    method SetHasMore(more: bool)
      modifies this
      ensures hasMore == more
      ensures posts == old(posts) && isLoading == old(isLoading) && page == old(page)
    {
      hasMore := more;
    }

    /** The like button of a post card: `updatePost` with the like-toggle
        patch computed from the post the card shows. */
    method ToggleLike(post: Post)
      modifies this
      ensures posts == Updated(old(posts), post.id, LikeToggle(post))
      ensures isLoading == old(isLoading) && hasMore == old(hasMore) && page == old(page)
    {
      UpdatePost(post.id, LikeToggle(post));
    }
  }

  /** N `addPosts` calls in a row: the page rises by N and the feed grows by
      the batches in order, so its length rises by their summed sizes. */
  method AddPages(state: PostsState, batches: seq<seq<Post>>)
    modifies state
    ensures state.posts == old(state.posts) + Flatten(batches)
    ensures |state.posts| == |old(state.posts)| + TotalSize(batches)
    ensures state.page == old(state.page) + |batches|
    ensures state.isLoading == old(state.isLoading) && state.hasMore == old(state.hasMore)
    decreases |batches|
  {
    if |batches| > 0 {
      state.AddPosts(batches[0]);
      AddPages(state, batches[1..]);
      assert old(state.posts) + batches[0] + Flatten(batches[1..]) == old(state.posts) + Flatten(batches);
    }
  }

  /** `setPosts([])`, `addPost(x)`, `addPost(y)` leaves `[y, x]`: newest first. */
  method NewestFirstScenario(x: Post, y: Post) returns (state: PostsState)
    ensures state.posts == [y, x] && state.page == 1
  {
    state := new PostsState();
    state.SetPosts([]);
    state.AddPost(x);
    state.AddPost(y);
  }

  /** `deletePost(id)` twice: the second call changes nothing. */
  method DeleteTwice(state: PostsState, id: string)
    modifies state
    ensures state.posts == Filtered(old(state.posts), id)
    ensures state.isLoading == old(state.isLoading) && state.hasMore == old(state.hasMore)
    ensures state.page == old(state.page)
  {
    state.DeletePost(id);
    state.DeletePost(id);
    FilteredIdempotent(old(state.posts), id);
  }
}
