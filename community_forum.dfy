/**
 * The anonymous community forum: a list of posts with likes and replies kept in
 * the local store, the set of posts whose replies are shown, and the post being
 * replied to.
 */
module CommunityForum {
  import opened Options
  import opened LocalStore
  import JsText

  datatype Reply = Reply(id: string, text: string, timestamp: string)

  datatype Post = Post(id: string, text: string, likes: int, replies: seq<Reply>, timestamp: string)

  const PostsKey := "community_posts"

  /** `!text.trim()`: the text is empty or only white space. */
  predicate Blank(text: string) {
    JsText.Trim(text) == ""
  }

  const FirstSeedText := "Just had my first full 4 hours of sleep in 3 weeks. Feeling like a new human! \U{1F338}"
  const FirstSeedReply := "That is such a huge win! So happy for you."
  const SecondSeedText := "Does anyone else feel guilty for wanting a break? I love my baby but I'm just so tired."
  const SecondSeedReply := "Every single one of us feels this. You are not alone and you are a great mom."

  /** The two posts stored on first use, given the three times they are stamped with. */
  function SeedPosts(now: string, hourAgo: string, twoHoursAgo: string): (r: seq<Post>)
    ensures |r| == 2 && r[0].id == "1" && r[1].id == "2"
    ensures r[0].text == FirstSeedText && r[1].text == SecondSeedText
    ensures r[0].likes == 12 && r[1].likes == 24
    ensures r[0].timestamp == hourAgo && r[1].timestamp == twoHoursAgo
    ensures r[0].replies == [Reply("r1", FirstSeedReply, now)]
    ensures r[1].replies == [Reply("r2", SecondSeedReply, now)]
  {
    [ Post("1", FirstSeedText, 12, [Reply("r1", FirstSeedReply, now)], hourAgo),
      Post("2", SecondSeedText, 24, [Reply("r2", SecondSeedReply, now)], twoHoursAgo) ]
  }

  // ---------------------------------------- the list operations

  /** `posts.map(p => p.id === postId ? { ...p, likes: p.likes + 1 } : p)`. */
  function Liked(posts: seq<Post>, postId: string): (r: seq<Post>)
    ensures |r| == |posts|
    ensures forall i :: 0 <= i < |r| && posts[i].id == postId ==> r[i].likes == posts[i].likes + 1
    ensures forall i :: 0 <= i < |r| ==> r[i].(likes := posts[i].likes) == posts[i]
    ensures forall i :: 0 <= i < |r| && posts[i].id != postId ==> r[i] == posts[i]
  {
    seq(|posts|, i requires 0 <= i < |posts| =>
      if posts[i].id == postId then posts[i].(likes := posts[i].likes + 1) else posts[i])
  }

  /** `posts.map(p => p.id === postId ? { ...p, replies: [...p.replies, reply] } : p)`. */
  function Replied(posts: seq<Post>, postId: string, reply: Reply): (r: seq<Post>)
    ensures |r| == |posts|
    ensures forall i :: 0 <= i < |r| && posts[i].id == postId ==> r[i].replies == posts[i].replies + [reply]
    ensures forall i :: 0 <= i < |r| ==> r[i].(replies := posts[i].replies) == posts[i]
    ensures forall i :: 0 <= i < |r| && posts[i].id != postId ==> r[i] == posts[i]
  {
    seq(|posts|, i requires 0 <= i < |posts| =>
      if posts[i].id == postId then posts[i].(replies := posts[i].replies + [reply]) else posts[i])
  }

  /** `toggleExpand`'s update: `postId` leaves the set if it was in it and joins it otherwise. */
  function Toggled(expanded: set<string>, postId: string): (r: set<string>)
    ensures postId in r <==> postId !in expanded
    ensures forall other :: other != postId ==> (other in r <==> other in expanded)
  {
    if postId in expanded then expanded - {postId} else expanded + {postId}
  }

  /** Toggling the same post twice restores the set. */
  lemma ToggleTwice(expanded: set<string>, postId: string)
    ensures Toggled(Toggled(expanded, postId), postId) == expanded
  {
  }

  // ---------------------------------------- totals over the list

  function TotalLikes(posts: seq<Post>): int {
    if posts == [] then 0 else TotalLikes(posts[..|posts| - 1]) + posts[|posts| - 1].likes
  }

  function TotalReplies(posts: seq<Post>): nat {
    if posts == [] then 0 else TotalReplies(posts[..|posts| - 1]) + |posts[|posts| - 1].replies|
  }

  /** Number of posts carrying `postId` (ids made from `Date.now()` need not be unique). */
  function CountId(posts: seq<Post>, postId: string): nat {
    if posts == [] then 0 else CountId(posts[..|posts| - 1], postId) + (if posts[|posts| - 1].id == postId then 1 else 0)
  }

  /** A like adds one like per post with that id, and nothing else to the total. */
  lemma {:induction false} LikeTotal(posts: seq<Post>, postId: string)
    ensures TotalLikes(Liked(posts, postId)) == TotalLikes(posts) + CountId(posts, postId)
  {
    if posts != [] {
      var init := posts[..|posts| - 1];
      LikeTotal(init, postId);
      assert Liked(posts, postId)[..|posts| - 1] == Liked(init, postId);
    }
  }

  /** A reply adds one reply per post with that id, and nothing else to the total. */
  lemma {:induction false} ReplyTotal(posts: seq<Post>, postId: string, reply: Reply)
    ensures TotalReplies(Replied(posts, postId, reply)) == TotalReplies(posts) + CountId(posts, postId)
  {
    if posts != [] {
      var init := posts[..|posts| - 1];
      ReplyTotal(init, postId, reply);
      assert Replied(posts, postId, reply)[..|posts| - 1] == Replied(init, postId, reply);
    }
  }

  // ---------------------------------------- the component

  class Forum {
    var posts: seq<Post>
    var newPost: string
    var replyingTo: Option<string>
    var replyText: string
    var expandedPosts: set<string>
    var store: map<string, string>

    constructor (store: map<string, string>)
      ensures posts == [] && newPost == "" && replyingTo == None && replyText == "" && expandedPosts == {}
      ensures this.store == store
    {
      posts, newPost, replyingTo, replyText, expandedPosts := [], "", None, "", {};
      this.store := store;
    }

    /** `savePosts`: the list is shown and written to the store. */
    method SavePosts(updated: seq<Post>, encode: seq<Post> -> string)
      modifies this`posts, this`store
      ensures posts == updated && store == old(store)[PostsKey := encode(updated)]
    {
      posts := updated;
      store := store[PostsKey := encode(updated)];
    }

    /**
     * The mount effect: saved posts are loaded as they are (`decode` is `JSON.parse`,
     * None when it throws); with none saved, the two seed posts are shown and stored.
     */
    method LoadOrSeed(decode: string -> Option<seq<Post>>, encode: seq<Post> -> string,
                      now: string, hourAgo: string, twoHoursAgo: string)
      modifies this`posts, this`store
      ensures Present(Item(old(store), PostsKey)) ==>
        store == old(store) && posts == decode(old(store)[PostsKey]).GetOr(old(posts))
      ensures !Present(Item(old(store), PostsKey)) ==>
        var seeds := SeedPosts(now, hourAgo, twoHoursAgo);
        posts == seeds && store == old(store)[PostsKey := encode(seeds)]
    {
      var saved := Item(store, PostsKey);
      if Present(saved) {
        var loaded := decode(saved.value);
        if loaded.Some? {
          posts := loaded.value;
        }
      } else {
        var seeds := SeedPosts(now, hourAgo, twoHoursAgo);
        posts := seeds;
        store := store[PostsKey := encode(seeds)];
      }
    }

    /** `handleCreatePost`: a non-blank draft becomes a new first post with no likes or replies; the draft is cleared. */
    method CreatePost(id: string, timestamp: string, encode: seq<Post> -> string)
      modifies this`posts, this`store, this`newPost
      ensures Blank(old(newPost)) ==> posts == old(posts) && store == old(store) && newPost == old(newPost)
      ensures !Blank(old(newPost)) ==>
        && |posts| == |old(posts)| + 1
        && posts[0] == Post(id, old(newPost), 0, [], timestamp)
        && posts[1..] == old(posts)
        && store == old(store)[PostsKey := encode(posts)]
        && newPost == ""
    {
      if Blank(newPost) { return; }
      var post := Post(id, newPost, 0, [], timestamp);
      SavePosts([post] + posts, encode);
      newPost := "";
    }

    /** `handleLike`. */
    method Like(postId: string, encode: seq<Post> -> string)
      modifies this`posts, this`store
      ensures posts == Liked(old(posts), postId) && store == old(store)[PostsKey := encode(posts)]
    {
      SavePosts(Liked(posts, postId), encode);
    }

    /**
     * `handleReply`: a non-blank reply text is appended to the replies of the posts
     * with that id; the text and the reply target are cleared and the post is expanded.
     */
    method ReplyTo(postId: string, id: string, timestamp: string, encode: seq<Post> -> string)
      modifies this`posts, this`store, this`replyText, this`replyingTo, this`expandedPosts
      ensures Blank(old(replyText)) ==>
        posts == old(posts) && store == old(store) && replyText == old(replyText) &&
        replyingTo == old(replyingTo) && expandedPosts == old(expandedPosts)
      ensures !Blank(old(replyText)) ==>
        && posts == Replied(old(posts), postId, Reply(id, old(replyText), timestamp))
        && store == old(store)[PostsKey := encode(posts)]
        && replyText == "" && replyingTo == None
        && expandedPosts == old(expandedPosts) + {postId}
    {
      if Blank(replyText) { return; }
      var reply := Reply(id, replyText, timestamp);
      SavePosts(Replied(posts, postId, reply), encode);
      replyText := "";
      replyingTo := None;
      expandedPosts := expandedPosts + {postId};
    }

    /** `toggleExpand`. */
    method ToggleExpand(postId: string)
      modifies this`expandedPosts
      ensures expandedPosts == Toggled(old(expandedPosts), postId)
    {
      var next := expandedPosts;
      if postId in next {
        next := next - {postId};
      } else {
        next := next + {postId};
      }
      expandedPosts := next;
    }

    /** The reply button: it opens the reply box of a post, or closes it when it was already open. */
    method ToggleReplying(postId: string)
      modifies this`replyingTo
      ensures replyingTo == if old(replyingTo) == Some(postId) then None else Some(postId)
    {
      replyingTo := if replyingTo == Some(postId) then None else Some(postId);
    }
  }
}
