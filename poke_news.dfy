/**
 * commands/PokeNewsRSS.js: posting the items of a news feed to the
 * `pokenews` channel, each link at most once, remembered in the module-level
 * set `sentPosts`. One run of `fetchAndSendNews` is modelled; the feed it
 * fetches and the send that may throw are inputs.
 */
module PokeNews {
  import opened Text

  datatype FeedItem = FeedItem(title: string, link: string, enclosureUrl: Option<string>)

  /** `item.enclosure?.url || null`: an image only for a non-empty enclosure URL. */
  predicate HasImage(item: FeedItem)
  {
    item.enclosureUrl.Some? && item.enclosureUrl.value != ""
  }

  /** The posted text: bold title, link, and the image URL on a third line when there is one. */
  function PostMessage(item: FeedItem): string
  {
    "**" + item.title + "**\n" + item.link + (if HasImage(item) then "\n" + item.enclosureUrl.value else "")
  }

  /** When no field holds a line break, the message's lines give the fields back. */
  lemma PostMessageLines(item: FeedItem)
    requires '\n' !in item.title && '\n' !in item.link
    requires item.enclosureUrl.Some? ==> '\n' !in item.enclosureUrl.value
    ensures Split(PostMessage(item), '\n')
         == ["**" + item.title + "**", item.link] + (if HasImage(item) then [item.enclosureUrl.value] else [])
  {
    var head := "**" + item.title + "**";
    assert '\n' !in head by {
      forall k | 0 <= k < |head| ensures head[k] != '\n' {
        if 2 <= k < |head| - 2 { assert head[k] == item.title[k - 2]; }
      }
    }
    if HasImage(item) {
      var parts := [head, item.link, item.enclosureUrl.value];
      assert Join(parts, "\n") == PostMessage(item) by {
        JoinCons(head, [item.link, item.enclosureUrl.value], "\n");
        JoinCons(item.link, [item.enclosureUrl.value], "\n");
        assert [item.link, item.enclosureUrl.value][1..] == [item.enclosureUrl.value];
        assert [head, item.link, item.enclosureUrl.value][1..] == [item.link, item.enclosureUrl.value];
      }
      SplitJoin(parts, '\n');
    } else {
      var parts := [head, item.link];
      assert Join(parts, "\n") == PostMessage(item) by {
        JoinCons(head, [item.link], "\n");
        assert [head, item.link][1..] == [item.link];
      }
      SplitJoin(parts, '\n');
    }
  }

  function Messages(items: seq<FeedItem>): (r: seq<string>)
    ensures |r| == |items|
    ensures forall k :: 0 <= k < |items| ==> r[k] == PostMessage(items[k])
  {
    seq(|items|, k requires 0 <= k < |items| => PostMessage(items[k]))
  }

  function Links(items: seq<FeedItem>): (links: set<string>)
    ensures forall k :: 0 <= k < |items| ==> items[k].link in links
    decreases |items|
  {
    if items == [] then {} else {items[0].link} + Links(items[1..])
  }

  /** What a run over the feed does: the items posted, the new seen-set, and the item whose send threw. */
  datatype RunResult = RunResult(posted: seq<FeedItem>, sent: set<string>, failedAt: Option<nat>)

  /**
   * The loop from feed index `from` with seen-set `sent`: an item whose link
   * was seen is skipped; otherwise it is sent and its link recorded, unless
   * its send throws (`failAt`), which ends the run at once.
   */
  function Run(items: seq<FeedItem>, from: nat, sent: set<string>, failAt: Option<nat>): RunResult
    decreases |items| - from
  {
    if from >= |items| then RunResult([], sent, None)
    else if items[from].link in sent then Run(items, from + 1, sent, failAt)
    else if failAt == Some(from) then RunResult([], sent, Some(from))
    else
      var rest := Run(items, from + 1, sent + {items[from].link}, failAt);
      RunResult([items[from]] + rest.posted, rest.sent, rest.failedAt)
  }

  /**
   * A run posts only links not seen before, each once, in feed order; the
   * seen-set grows by exactly the posted links.
   */
  lemma {:induction false} RunPostsUnseenOnce(items: seq<FeedItem>, from: nat, sent: set<string>, failAt: Option<nat>)
    requires from <= |items|
    ensures var r := Run(items, from, sent, failAt);
      && (forall k :: 0 <= k < |r.posted| ==> r.posted[k].link !in sent)
      && (forall j, k :: 0 <= j < k < |r.posted| ==> r.posted[j].link != r.posted[k].link)
      && r.sent == sent + Links(r.posted)
      && IsSubsequence(r.posted, items[from..])
    decreases |items| - from
  {
    if from >= |items| {
    } else if items[from].link in sent {
      RunPostsUnseenOnce(items, from + 1, sent, failAt);
      assert items[from..][1..] == items[from + 1..];
    } else if failAt == Some(from) {
    } else {
      var link := items[from].link;
      var rest := Run(items, from + 1, sent + {link}, failAt);
      RunPostsUnseenOnce(items, from + 1, sent + {link}, failAt);
      var posted := [items[from]] + rest.posted;
      assert items[from..][0] == items[from] && items[from..][1..] == items[from + 1..];
      assert posted[1..] == rest.posted;
    }
  }

  /**
   * Without a failed send, every link of the feed is seen afterwards; after a
   * failed send, that item's link is still unseen, so the next run retries it.
   */
  lemma {:induction false} RunRecordsFeed(items: seq<FeedItem>, from: nat, sent: set<string>, failAt: Option<nat>)
    ensures var r := Run(items, from, sent, failAt);
      && sent <= r.sent
      && (r.failedAt.None? ==> forall k :: from <= k < |items| ==> items[k].link in r.sent)
      && (r.failedAt.Some? ==>
            from <= r.failedAt.value < |items| && items[r.failedAt.value].link !in r.sent && failAt == r.failedAt)
    decreases |items| - from
  {
    if from >= |items| {
    } else if items[from].link in sent {
      RunRecordsFeed(items, from + 1, sent, failAt);
    } else if failAt == Some(from) {
    } else {
      RunRecordsFeed(items, from + 1, sent + {items[from].link}, failAt);
    }
  }

  class PokeNewsFeed {
    /** The links already posted (`sentPosts`). */
    var sentPosts: set<string>
    /** Everything posted to the `pokenews` channel, oldest first. */
    var outbox: seq<string>

    constructor()
      ensures sentPosts == {} && outbox == []
    {
      sentPosts := {};
      outbox := [];
    }

    /**
     * `fetchAndSendNews` (PokeNewsRSS.js:24-46). `feed` is None when fetching
     * or parsing the feed fails; `failAt` is the feed index whose send throws.
     */
    method FetchAndSendNews(feed: Option<seq<FeedItem>>, failAt: Option<nat>)
      modifies this
      ensures feed.None? ==> sentPosts == old(sentPosts) && outbox == old(outbox)
      ensures feed.Some? ==>
        var r := Run(feed.value, 0, old(sentPosts), failAt);
        sentPosts == r.sent && outbox == old(outbox) + Messages(r.posted)
    {
      if feed.None? {
        return;
      }
      var items := feed.value;
      ghost var sentBefore := sentPosts;
      ghost var posted: seq<FeedItem> := [];
      var i := 0;
      while i < |items|
        invariant 0 <= i <= |items|
        invariant outbox == old(outbox) + Messages(posted)
        invariant var r := Run(items, i, sentPosts, failAt);
          Run(items, 0, sentBefore, failAt) == RunResult(posted + r.posted, r.sent, r.failedAt)
      {
        var item := items[i];
        if item.link !in sentPosts {
          if failAt == Some(i) {
            // the send threw: the catch block ends the run with nothing recorded
            return;
          }
          outbox := outbox + [PostMessage(item)];
          sentPosts := sentPosts + {item.link};
          posted := posted + [item];
          assert Messages(posted) == Messages(posted[..|posted| - 1]) + [PostMessage(item)];
        }
        i := i + 1;
      }
      assert posted + [] == posted;
    }

    /**
     * `startPokeNewsFeed` (PokeNewsRSS.js:11-53) up to its first run: nothing
     * happens without the `pokenews` text channel; otherwise the feed is read once.
     */
    method Start(channelFound: bool, feed: Option<seq<FeedItem>>, failAt: Option<nat>) returns (started: bool)
      modifies this
      ensures started == channelFound
      ensures !channelFound ==> sentPosts == old(sentPosts) && outbox == old(outbox)
      ensures channelFound && feed.Some? ==>
        var r := Run(feed.value, 0, old(sentPosts), failAt);
        sentPosts == r.sent && outbox == old(outbox) + Messages(r.posted)
      ensures channelFound && feed.None? ==> sentPosts == old(sentPosts) && outbox == old(outbox)
    {
      if !channelFound {
        return false;
      }
      FetchAndSendNews(feed, failAt);
      return true;
    }
  }
}
