# Reddit scraper: post and comment normalisation

This project models `scrape_subreddit`, the core of a scraper that collects recent
discussion from a subreddit. It asks the forum API (the `roux` crate) for the latest
100 posts. It normalises each listing entry into a `Post`. Then, for each post in order,
it asks for that post's comment tree, normalises the entries into `Comment`s, attaches
them, and pushes the post onto the result. A failed request never becomes an error:
a failed listing gives no posts, and a failed comment request gives that one post no
comments.

Modules:

- `Prelude` (prelude.dfy): `Option` and the fixed-width numbers. `u64` and `i32` become
  subset types of `int`. `f64` becomes its 64-bit pattern, because the scraper only
  copies those values.
- `Roux` (roux.dfy): the raw records the client returns (`RawPost`, `RawComment`) and
  the outcome of a request (`Listing`: `Ok(children)` or `Err`). A `Subreddit` handle
  holds the two requests as functions of their arguments, plus `maxLimit`. `maxLimit`
  is the largest value of the integer type of the comment request's depth and limit
  parameters. That type is defined in the client, not here, so the model keeps its
  bound abstract. The bound is at least 100 because the literal 100 has that type.
- `FilterMaps` (filter_map.dfy): Rust's `iter().filter_map(f).collect()` as
  `FilterMap`. It is checked against `KeptIndices`, an independent description: the
  strictly increasing positions of the entries `f` keeps.
- `RedditScraper` (reddit_scraper.dfy): `Post`, `Comment`, `Post::new`,
  `Post::set_comments`, the two `filter_map` closures, the request limit, and
  `scrape_subreddit`. The association loop is the method `ScrapeSubreddit`. It is
  proved against the function `Scrape`, and the lemmas about `Scrape` state the
  failure policy and ordering.
- `Scenarios` (scenarios.dfy): two concrete listings: three entries where the middle
  one has no content, and two posts where the first post's comment request fails.

Normalisation functions are deterministic, so running normalisation twice on the same
input gives the same output by construction.

The code only checks whether self-text or a link is *present*, not that it is
non-empty. An entry with self-text `Some("")` is kept with empty content, and its link
is ignored (`Scenarios.EmptySelftextIsKept`).

## Model

| member | source | states |
|---|---|---|
| `RedditScraper.Post.New` | src/reddit_scraper.rs:21-50 | a new post has an empty comment list and carries each argument in the field of the same name |
| `RedditScraper.Post.SetComments` | src/reddit_scraper.rs:52-68 | the result carries exactly the given comments; putting the old comments back gives the original post, so the other twelve fields are unchanged |
| `RedditScraper.NormalisePost` | src/reddit_scraper.rs:91-115 | an entry yields a post iff it has self-text or a link; the post's content is the self-text if present, else the link; every other field is copied; no comments yet |
| `RedditScraper.NormalisePostsOnFailure` | src/reddit_scraper.rs:117 | a failed listing request gives the empty post list |
| `RedditScraper.NormalisedPostsInOrder` | src/reddit_scraper.rs:89-118 | the posts are, one for one and in listing order, the normalised forms of exactly the entries that have content |
| `RedditScraper.NormalisedPostsCount` | src/reddit_scraper.rs:91-115 | the post list is never longer than the listing, and is exactly as long iff every entry has content |
| `RedditScraper.NormalisePostsDropsEntry` | src/reddit_scraper.rs:93-99 | an entry without content contributes no post: removing it from anywhere in the listing leaves the post list unchanged |
| `RedditScraper.NormalisePostsAppend` | src/reddit_scraper.rs:91-115 | normalisation works entry by entry: it distributes over concatenation of listings |
| `RedditScraper.NormaliseComment` | src/reddit_scraper.rs:128-145 | an entry yields a comment iff it has an id; the comment has that id, the owning post's id, and every optional field copied as received |
| `RedditScraper.NormalisedCommentsInOrder` | src/reddit_scraper.rs:127-146 | the comments are, one for one and in listing order, the normalised forms of exactly the entries that have an id |
| `RedditScraper.CommentsReferToPost` | src/reddit_scraper.rs:122-148 | whatever the comment request returns, every resulting comment refers to the owning post |
| `RedditScraper.NormalisedCommentsCount` | src/reddit_scraper.rs:128-145 | the comment list is never longer than the listing, and is exactly as long iff every entry has an id |
| `RedditScraper.RequestLimit` | src/reddit_scraper.rs:124-125 | the limit is the declared comment count when the request's integer type holds it, else 100; it is always within that type |
| `RedditScraper.ScrapeSubreddit` | src/reddit_scraper.rs:85-155 | the loop returns `Scrape(sub)`: each normalised post, in order, with its comments attached |
| `RedditScraper.AttachAllPointwise` | src/reddit_scraper.rs:120-152 | the loop emits one post per input post in the same order; each is its input post with only the comments replaced by the normalised outcome of its own request, whose depth and limit are both the request limit |
| `RedditScraper.ScrapePointwise` | src/reddit_scraper.rs:85-155 | the scrape has one post per normalised post, in order, each unchanged except for the comments of its own request, and every attached comment refers to its post |
| `RedditScraper.ScrapeOnListingFailure` | src/reddit_scraper.rs:87-118 | a failed listing request makes the scrape return the empty list |
| `RedditScraper.ScrapeOnCommentFailure` | src/reddit_scraper.rs:122-151 | a failed comment request keeps its post in place, unchanged except for an empty comment list |
| `RedditScraper.ScrapeIndependence` | src/reddit_scraper.rs:120-152 | a post's scraped value depends only on the listing and on its own comment request, not on the other posts' requests |
| `FilterMaps.FilterMap` | src/reddit_scraper.rs:91-115 | `filter_map(..).collect()` never yields more elements than its input |
| `FilterMaps.KeptIndices` | src/reddit_scraper.rs:91-115 | the kept positions are in range, strictly increasing, and include every position whose entry the closure keeps |
| `FilterMaps.FilterMapIsKeptImage` | src/reddit_scraper.rs:128-145 | the k-th collected value is the closure's value at the k-th kept position |
| `FilterMaps.FilterMapAppend` | src/reddit_scraper.rs:128-145 | collecting a concatenation gives the concatenation of the collected parts |
| `FilterMaps.FilterMapKeepsAll` | src/reddit_scraper.rs:128-145 | the result is as long as the input iff the closure keeps every entry |
| `Scenarios.ListingDropsEntryWithoutContent` | src/reddit_scraper.rs:93-99 | entries a (self-text "hi"), b (nothing) and c (link only) give posts a with content "hi" and c with the link |
| `Scenarios.CommentFailureIsPerPost` | src/reddit_scraper.rs:122-151 | when post a's comment request fails, a is still emitted with no comments, and its sibling c keeps the comment that has an id, referring to c |
| `Scenarios.EmptySelftextIsKept` | src/reddit_scraper.rs:93-94 | empty self-text counts as present: the post is kept with empty content and the link is not used |

## Left out

- src/main.rs: the fixed subreddit list, the HTTP POST of each result to the collection endpoint, JSON serialisation, and the `unwrap` on delivery. All of this is I/O.
- The `roux` client (`Subreddit::new`, `latest`, `article_comments`): authentication, HTTP and response parsing. Its results are inputs: `Listing` values returned by the functions in a `Subreddit` handle.
- `async`/`await`: the loop awaits one request at a time, which the sequential method models.
- The exact integer type of the comment request's depth and limit: it is not visible in this repository. It is the abstract bound `maxLimit` (at least 100).
- Fields of the client's records that the scraper never reads.
- `f64` values: only copied, never computed with. They are modelled as bit patterns.
- Repeated requests with the same arguments are modelled as returning the same outcome, since each request is a function of its arguments. Post ids are unique within a listing, so every post's comment request is distinct.
