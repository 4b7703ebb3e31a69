/** The results of the forum-API client (the `roux` crate) as the scraper sees them.
    The client itself (authentication, HTTP, response parsing) is not part of this
    model: its two requests are given as functions from their arguments to a listing
    that either arrived or failed. */
module Roux {
  import opened Prelude

  /** The fields of one submission of a subreddit listing that the scraper reads. */
  datatype RawPost = RawPost(
    id: string,
    title: string,
    selftextHtml: Option<string>,
    url: Option<string>,
    permalink: string,
    subreddit: string,
    author: string,
    over18: bool,
    numComments: U64,
    score: F64,
    ups: F64,
    downs: F64,
    created: F64)

  /** The fields of one entry of an article's comment listing that the scraper reads;
      the API may omit any of them for removed or restricted comments. */
  datatype RawComment = RawComment(
    id: Option<string>,
    parentId: Option<string>,
    author: Option<string>,
    permalink: Option<string>,
    bodyHtml: Option<string>,
    over18: Option<bool>,
    score: Option<I32>,
    ups: Option<I32>,
    downs: Option<I32>)

  /** The outcome of one request: the children of the returned listing, or a failure
      of any kind (network, rate limit, malformed response). */
  datatype Listing<T> = Ok(children: seq<T>) | Err

  /** Upper bounds for the integer type of the comment request's depth and limit
      parameters. That type is not visible here; it holds the literal 100, so its
      largest value is at least 100. */
  type LimitBound = m: nat | 100 <= m witness 100

  /** A subreddit handle: what `latest(count, None)` and
      `article_comments(id, Some(depth), Some(limit))` return, for every argument. */
  datatype Subreddit = Subreddit(
    latest: nat -> Listing<RawPost>,
    articleComments: (string, nat, nat) -> Listing<RawComment>,
    maxLimit: LimitBound)
}
