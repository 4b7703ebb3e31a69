/** The two worked examples of the scraper's behaviour, stated on concrete listings. */
module Scenarios {
  import opened Prelude
  import opened Roux
  import opened FilterMaps
  import opened RedditScraper

  /** A listing entry that differs from the others only in id, self-text and link. */
  function Entry(id: string, selftextHtml: Option<string>, url: Option<string>): RawPost {
    RawPost(id, "title " + id, selftextHtml, url, "/r/x/" + id, "x", "someone", false,
            5, 0, 0, 0, 0)
  }

  /** A comment entry with only its id and body present. */
  function Reply(id: Option<string>, body: string): RawComment {
    RawComment(id, None, None, None, Some(body), None, None, None, None)
  }

  /** Entries a (self-text "hi"), b (neither) and c (link only) normalise to a and c,
      with contents "hi" and the link; b is dropped. */
  lemma {:induction false} ListingDropsEntryWithoutContent()
    ensures var posts := NormalisePosts(Ok([Entry("a", Some("hi"), None),
                                            Entry("b", None, None),
                                            Entry("c", None, Some("http://x"))]));
      && |posts| == 2
      && posts[0].id == "a" && posts[0].content == "hi"
      && posts[1].id == "c" && posts[1].content == "http://x"
  {
    var a, b, c := Entry("a", Some("hi"), None), Entry("b", None, None),
                   Entry("c", None, Some("http://x"));
    NormalisePostsAppend([a, b], [c]);
    NormalisePostsAppend([a], [b]);
    assert [a, b] + [c] == [a, b, c];
    assert [a] + [b] == [a, b];
  }

  /** A subreddit listing posts a and c, where the comment request for a fails and the
      one for c returns an entry with an id and one without. */
  function Sample(): Subreddit {
    Subreddit(
      n => Ok([Entry("a", Some("hi"), None), Entry("c", None, Some("http://x"))]),
      (id, depth, limit) =>
        if id == "a" then Err else Ok([Reply(Some("c1"), "yes"), Reply(None, "gone")]),
      0xFFFF_FFFF)
  }

  /** Post a keeps its place with no comments; its sibling c keeps its own comment,
      which refers to c. */
  lemma {:induction false} CommentFailureIsPerPost()
    ensures var posts := Scrape(Sample());
      && |posts| == 2
      && posts[0].id == "a" && posts[0].comments == []
      && posts[1].id == "c"
      && posts[1].comments == [Comment("c1", "c", None, None, None, Some("yes"), None, None, None, None)]
  {
    var sub := Sample();
    var a, c := Entry("a", Some("hi"), None), Entry("c", None, Some("http://x"));
    NormalisePostsAppend([a], [c]);
    assert [a] + [c] == [a, c];
    var replies := [Reply(Some("c1"), "yes"), Reply(None, "gone")];
    assert replies == [replies[0]] + [replies[1]];
    FilterMapAppend([replies[0]], [replies[1]], CommentNormaliser("c"));
    ScrapePointwise(sub);
  }

  /** Only the presence of self-text is checked, not that it is non-empty: an entry
      whose self-text is the empty string is kept with empty content, and its link is
      not used. */
  lemma EmptySelftextIsKept()
    ensures var r := NormalisePost(Entry("e", Some(""), Some("http://y")));
      r.Some? && r.value.content == ""
  {}
}
