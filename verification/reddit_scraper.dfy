/** `scrape_subreddit`: fetch the latest posts of one subreddit, normalise them, then
    fetch and normalise each post's comments and attach them, degrading every failed
    request to an empty list instead of an error. */
module RedditScraper {
  import opened Prelude
  import opened Roux
  import opened FilterMaps

  /** How many posts the listing request asks for. */
  const LatestCount: nat := 100

  /** The request limit used when a post's comment count does not fit the
      request parameter's integer type. */
  const FallbackLimit: nat := 100

  /** One reply of a post's comment tree. */
  datatype Comment = Comment(
    id: string,
    postId: string,
    parentId: Option<string>,
    author: Option<string>,
    permalink: Option<string>,
    bodyHtml: Option<string>,
    over18: Option<bool>,
    score: Option<I32>,
    ups: Option<I32>,
    downs: Option<I32>)

  /** One submission, with the comments attached to it so far. */
  datatype Post = Post(
    id: string,
    title: string,
    content: string,
    permalink: string,
    subreddit: string,
    author: string,
    over18: bool,
    numComments: U64,
    score: F64,
    ups: F64,
    downs: F64,
    created: F64,
    comments: seq<Comment>)
  {
    /** `Post::new`: a post that has no comments yet. */
    static function New(
      id: string, title: string, content: string, permalink: string,
      subreddit: string, author: string, over18: bool, numComments: U64,
      score: F64, ups: F64, downs: F64, created: F64): (p: Post)
      ensures p.comments == []
      ensures p.id == id && p.title == title && p.content == content
      ensures p.permalink == permalink && p.subreddit == subreddit && p.author == author
      ensures p.over18 == over18 && p.numComments == numComments
      ensures p.score == score && p.ups == ups && p.downs == downs && p.created == created
    {
      Post(id, title, content, permalink, subreddit, author, over18, numComments,
           score, ups, downs, created, [])
    }

    /** `Post::set_comments`: the same post carrying `comments`. Putting the old list
        back gives the original post, so no other field changes. */
    function SetComments(comments: seq<Comment>): (p: Post)
      ensures p.comments == comments
      ensures p.(comments := this.comments) == this
    {
      this.(comments := comments)
    }
  }

  // ---------------------------------------------------------------------------
  // Post normalisation
  // ---------------------------------------------------------------------------

  /** A listing entry has something to show: rendered self-text or a link. */
  predicate HasContent(raw: RawPost) {
    raw.selftextHtml.Some? || raw.url.Some?
  }

  /** `p` is the normalised form of `raw`: its content is the self-text when there is
      one and the link otherwise, every other field is copied and no comments are
      attached yet. */
  ghost predicate NormalisedFrom(p: Post, raw: RawPost) {
    && (match raw.selftextHtml
        case Some(text) => p.content == text
        case None => raw.url.Some? && p.content == raw.url.value)
    && p.id == raw.id && p.title == raw.title && p.permalink == raw.permalink
    && p.subreddit == raw.subreddit && p.author == raw.author
    && p.over18 == raw.over18 && p.numComments == raw.numComments
    && p.score == raw.score && p.ups == raw.ups && p.downs == raw.downs
    && p.created == raw.created
    && p.comments == []
  }

  /** The `filter_map` closure over listing entries: an entry without content yields
      no post. */
  function NormalisePost(raw: RawPost): (r: Option<Post>)
    ensures r.Some? <==> HasContent(raw)
    ensures r.Some? ==> NormalisedFrom(r.value, raw)
  {
    var content :=
      match raw.selftextHtml
      case Some(text) => Some(text)
      case None => raw.url;
    match content
    case None => None
    case Some(c) =>
      Some(Post.New(raw.id, raw.title, c, raw.permalink, raw.subreddit, raw.author,
                    raw.over18, raw.numComments, raw.score, raw.ups, raw.downs, raw.created))
  }

  /** The posts made from the listing request's outcome; a failed request gives none. */
  function NormalisePosts(latest: Listing<RawPost>): seq<Post> {
    match latest
    case Ok(raws) => FilterMap(raws, NormalisePost)
    case Err => []
  }

  /** A failed listing request gives an empty post list, not an error. */
  lemma NormalisePostsOnFailure()
    ensures NormalisePosts(Err) == []
  {}

  /** The positions of the listing entries that become posts, in increasing order. */
  function PostPositions(raws: seq<RawPost>): seq<nat> {
    KeptIndices(raws, NormalisePost)
  }

  /** The posts are the entries with content, each normalised, in listing order (the
      kept positions increase strictly): an entry appears in the output exactly when it
      has content. */
  lemma {:induction false} NormalisedPostsInOrder(raws: seq<RawPost>)
    ensures |NormalisePosts(Ok(raws))| == |PostPositions(raws)|
    ensures forall i :: 0 <= i < |raws| ==> (i in PostPositions(raws) <==> HasContent(raws[i]))
    ensures forall k :: 0 <= k < |NormalisePosts(Ok(raws))| ==>
      NormalisedFrom(NormalisePosts(Ok(raws))[k], raws[PostPositions(raws)[k]])
  {
    FilterMapIsKeptImage(raws, NormalisePost);
  }

  /** The post list is never longer than the listing, and exactly as long when every
      entry has content; so a listing with an entry lacking content gives fewer posts. */
  lemma NormalisedPostsCount(raws: seq<RawPost>)
    ensures |NormalisePosts(Ok(raws))| <= |raws|
    ensures |NormalisePosts(Ok(raws))| == |raws| <==>
      forall i :: 0 <= i < |raws| ==> HasContent(raws[i])
  {
    FilterMapKeepsAll(raws, NormalisePost);
  }

  /** An entry without content contributes nothing: removing it from anywhere in the
      listing leaves the posts unchanged, so each such entry costs exactly one post
      relative to the listing's length. */
  lemma NormalisePostsDropsEntry(before: seq<RawPost>, entry: RawPost, after: seq<RawPost>)
    requires !HasContent(entry)
    ensures NormalisePosts(Ok(before + [entry] + after)) == NormalisePosts(Ok(before + after))
  {
    NormalisePostsAppend(before + [entry], after);
    NormalisePostsAppend(before, [entry]);
    NormalisePostsAppend(before, after);
    assert [entry][..0] == [];
  }

  /** Normalisation works entry by entry: the posts of two concatenated listings are
      the posts of the first followed by those of the second. */
  lemma NormalisePostsAppend(first: seq<RawPost>, second: seq<RawPost>)
    ensures NormalisePosts(Ok(first + second)) ==
      NormalisePosts(Ok(first)) + NormalisePosts(Ok(second))
  {
    FilterMapAppend(first, second, NormalisePost);
  }

  // ---------------------------------------------------------------------------
  // Comment normalisation
  // ---------------------------------------------------------------------------

  /** `c` is the normalised form of `raw` inside the post `postId`: it has `raw`'s id,
      refers to that post, and every optional field is copied (absent stays absent). */
  ghost predicate CommentFrom(c: Comment, postId: string, raw: RawComment) {
    && raw.id.Some? && c.id == raw.id.value
    && c.postId == postId
    && c.parentId == raw.parentId && c.author == raw.author
    && c.permalink == raw.permalink && c.bodyHtml == raw.bodyHtml
    && c.over18 == raw.over18
    && c.score == raw.score && c.ups == raw.ups && c.downs == raw.downs
  }

  /** The `filter_map` closure over comment entries of the post `postId`: an entry
      without an id yields no comment. */
  function NormaliseComment(postId: string, raw: RawComment): (r: Option<Comment>)
    ensures r.Some? <==> raw.id.Some?
    ensures r.Some? ==> CommentFrom(r.value, postId, raw)
  {
    match raw.id
    case Some(id) =>
      Some(Comment(id, postId, raw.parentId, raw.author, raw.permalink, raw.bodyHtml,
                   raw.over18, raw.score, raw.ups, raw.downs))
    case None => None
  }

  /** The closure with the owning post's id captured. */
  function CommentNormaliser(postId: string): RawComment -> Option<Comment> {
    raw => NormaliseComment(postId, raw)
  }

  /** The comments made from one comment request's outcome; a failed request gives none. */
  function NormaliseComments(postId: string, fetched: Listing<RawComment>): seq<Comment> {
    match fetched
    case Ok(raws) => FilterMap(raws, CommentNormaliser(postId))
    case Err => []
  }

  /** The positions of the comment entries that become comments, in increasing order. */
  function CommentPositions(postId: string, raws: seq<RawComment>): seq<nat> {
    KeptIndices(raws, CommentNormaliser(postId))
  }

  /** The comments are the entries with an id, each normalised for the post `postId`,
      in listing order (the kept positions increase strictly): an entry appears in the
      output exactly when it has an id. */
  lemma {:induction false} NormalisedCommentsInOrder(postId: string, raws: seq<RawComment>)
    ensures |NormaliseComments(postId, Ok(raws))| == |CommentPositions(postId, raws)|
    ensures forall i :: 0 <= i < |raws| ==>
      (i in CommentPositions(postId, raws) <==> raws[i].id.Some?)
    ensures forall k :: 0 <= k < |NormaliseComments(postId, Ok(raws))| ==>
      CommentFrom(NormaliseComments(postId, Ok(raws))[k], postId, raws[CommentPositions(postId, raws)[k]])
  {
    FilterMapIsKeptImage(raws, CommentNormaliser(postId));
  }

  /** Every normalised comment, whatever the request returned, refers to its post. */
  lemma CommentsReferToPost(postId: string, fetched: Listing<RawComment>)
    ensures forall c :: c in NormaliseComments(postId, fetched) ==> c.postId == postId
  {
    if fetched.Ok? {
      NormalisedCommentsInOrder(postId, fetched.children);
    }
  }

  /** The comment list is never longer than the listing, and exactly as long when every
      entry has an id; so a listing with an entry lacking an id gives fewer comments. */
  lemma NormalisedCommentsCount(postId: string, raws: seq<RawComment>)
    ensures |NormaliseComments(postId, Ok(raws))| <= |raws|
    ensures |NormaliseComments(postId, Ok(raws))| == |raws| <==>
      forall i :: 0 <= i < |raws| ==> raws[i].id.Some?
  {
    FilterMapKeepsAll(raws, CommentNormaliser(postId));
  }

  // ---------------------------------------------------------------------------
  // Comment association
  // ---------------------------------------------------------------------------

  /** `num_comments.try_into().unwrap_or(100)`: the post's declared comment count when
      the request's integer type can hold it, and 100 otherwise. */
  function RequestLimit(numComments: U64, maxLimit: LimitBound): (limit: nat)
    ensures limit <= maxLimit
    ensures numComments <= maxLimit ==> limit == numComments
    ensures maxLimit < numComments ==> limit == FallbackLimit
  {
    if numComments <= maxLimit then numComments else FallbackLimit
  }

  /** The outcome of the comment request for `post`, whose depth and limit are both
      the post's request limit. */
  function FetchComments(sub: Subreddit, post: Post): Listing<RawComment> {
    var limit := RequestLimit(post.numComments, sub.maxLimit);
    sub.articleComments(post.id, limit, limit)
  }

  /** One iteration of the association loop: `post` with its fetched comments. */
  function WithComments(sub: Subreddit, post: Post): Post {
    post.SetComments(NormaliseComments(post.id, FetchComments(sub, post)))
  }

  /** The association loop as a fold: each post, in order, with its comments attached. */
  function AttachAll(sub: Subreddit, posts: seq<Post>): seq<Post> {
    if posts == [] then []
    else AttachAll(sub, posts[..|posts| - 1]) + [WithComments(sub, posts[|posts| - 1])]
  }

  /** The posts `scrape_subreddit` starts the association loop with. */
  function LatestPosts(sub: Subreddit): seq<Post> {
    NormalisePosts(sub.latest(LatestCount))
  }

  /** What `scrape_subreddit` returns for the subreddit `sub`. */
  function Scrape(sub: Subreddit): seq<Post> {
    AttachAll(sub, LatestPosts(sub))
  }

  /** `scrape_subreddit`: normalise the latest posts, then push each one, in order,
      with its comments attached onto the result. */
  method ScrapeSubreddit(sub: Subreddit) returns (postsWithComments: seq<Post>)
    ensures postsWithComments == Scrape(sub)
  {
    var latest := sub.latest(LatestCount);
    var posts := match latest
      case Ok(raws) => FilterMap(raws, NormalisePost)
      case Err => [];
    postsWithComments := [];
    for i := 0 to |posts|
      invariant postsWithComments == AttachAll(sub, posts[..i])
    {
      var post := posts[i];
      var limit := RequestLimit(post.numComments, sub.maxLimit);
      var comments := NormaliseComments(post.id, sub.articleComments(post.id, limit, limit));
      assert posts[..i + 1][..i] == posts[..i];
      postsWithComments := postsWithComments + [post.SetComments(comments)];
    }
    assert posts[..|posts|] == posts;
  }

  /** The loop emits exactly one post per input post, in the same order; the k-th is
      the k-th input post, unchanged except that its comments are the normalised
      outcome of its own comment request. */
  lemma {:induction false} AttachAllPointwise(sub: Subreddit, posts: seq<Post>)
    ensures |AttachAll(sub, posts)| == |posts|
    ensures forall k :: 0 <= k < |posts| ==>
      && AttachAll(sub, posts)[k].(comments := posts[k].comments) == posts[k]
      && AttachAll(sub, posts)[k].comments == NormaliseComments(posts[k].id, FetchComments(sub, posts[k]))
  {
    if posts != [] {
      var init := posts[..|posts| - 1];
      AttachAllPointwise(sub, init);
      assert forall k :: 0 <= k < |init| ==> init[k] == posts[k];
    }
  }

  /** The scraped posts are the normalised posts, one for one and in order, each with
      the comments of its own request, and those comments refer to it. */
  lemma ScrapePointwise(sub: Subreddit)
    ensures |Scrape(sub)| == |LatestPosts(sub)|
    ensures forall k :: 0 <= k < |Scrape(sub)| ==>
      && Scrape(sub)[k].(comments := LatestPosts(sub)[k].comments) == LatestPosts(sub)[k]
      && Scrape(sub)[k].comments ==
           NormaliseComments(LatestPosts(sub)[k].id, FetchComments(sub, LatestPosts(sub)[k]))
      && (forall c :: c in Scrape(sub)[k].comments ==> c.postId == Scrape(sub)[k].id)
  {
    var posts := LatestPosts(sub);
    AttachAllPointwise(sub, posts);
    forall k | 0 <= k < |posts|
      ensures forall c :: c in Scrape(sub)[k].comments ==> c.postId == Scrape(sub)[k].id
    {
      CommentsReferToPost(posts[k].id, FetchComments(sub, posts[k]));
    }
  }

  /** A failed listing request makes the whole scrape an empty list, never an error. */
  lemma ScrapeOnListingFailure(sub: Subreddit)
    requires sub.latest(LatestCount).Err?
    ensures Scrape(sub) == []
  {}

  /** A failed comment request leaves its post in the output, unchanged apart from an
      empty comment list. */
  lemma ScrapeOnCommentFailure(sub: Subreddit, k: nat)
    requires k < |LatestPosts(sub)|
    requires FetchComments(sub, LatestPosts(sub)[k]).Err?
    ensures k < |Scrape(sub)|
    ensures Scrape(sub)[k] == LatestPosts(sub)[k].SetComments([])
  {
    ScrapePointwise(sub);
  }

  /** Posts are independent of each other: two subreddits that return the same listing
      and the same outcome for the comment request of post k scrape the same post k,
      whatever the other comment requests return. */
  lemma ScrapeIndependence(sub: Subreddit, other: Subreddit, k: nat)
    requires sub.latest(LatestCount) == other.latest(LatestCount)
    requires k < |LatestPosts(sub)|
    requires FetchComments(sub, LatestPosts(sub)[k]) == FetchComments(other, LatestPosts(sub)[k])
    ensures k < |Scrape(sub)| && k < |Scrape(other)|
    ensures Scrape(sub)[k] == Scrape(other)[k]
  {
    ScrapePointwise(sub);
    ScrapePointwise(other);
  }
}
