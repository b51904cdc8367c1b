/**
 * commands/SlightlyDelayedDrops.js: announcing the newest post of a Threads
 * profile in the `slightlydelayeddrops` channel. Each poll compares the
 * scraped post URL with the last one seen (`lastPostUrl`); the browser
 * session is not modelled, its result is an input of the poll.
 */
module ThreadsWatch {
  import opened Text

  /** One poll: the scraped URL (None when scraping failed), and whether the guild and channel exist. */
  datatype Poll = Poll(scraped: Option<string>, guildFound: bool, channelFound: bool)

  function Announcement(url: string): string
  {
    "New post: " + url
  }

  /** The scrape produced a URL that counts: `!latestPostUrl` rejects null and the empty string. */
  predicate Found(p: Poll)
  {
    p.scraped.Some? && p.scraped.value != ""
  }

  datatype Step = Step(lastPostUrl: Option<string>, sent: Option<string>)

  /** One `checkForNewPosts` (SlightlyDelayedDrops.js:50-85): the new last-seen URL and the URL announced, if any. */
  function WatchStep(last: Option<string>, p: Poll): (r: Step)
    ensures !Found(p) ==> r == Step(last, None)
    ensures Found(p) && last == p.scraped ==> r == Step(last, None)
    ensures Found(p) ==> r.lastPostUrl == p.scraped
    ensures r.sent.Some? <==> Found(p) && last != p.scraped && p.guildFound && p.channelFound
    ensures r.sent.Some? ==> r.sent == p.scraped && r.sent != last
  {
    if !Found(p) then Step(last, None)
    else if p.scraped == last then Step(last, None)
    else if !p.guildFound || !p.channelFound then Step(p.scraped, None)
    else Step(p.scraped, p.scraped)
  }

  /** A sequence of polls from last-seen URL `last`: the final last-seen URL and the URLs announced. */
  function WatchRun(last: Option<string>, polls: seq<Poll>): (Option<string>, seq<string>)
    decreases |polls|
  {
    if polls == [] then (last, [])
    else
      var step := WatchStep(last, polls[0]);
      var rest := WatchRun(step.lastPostUrl, polls[1..]);
      (rest.0, (if step.sent.Some? then [step.sent.value] else []) + rest.1)
  }

  predicate ChannelAlwaysFound(polls: seq<Poll>)
  {
    forall k :: 0 <= k < |polls| ==> polls[k].guildFound && polls[k].channelFound
  }

  /**
   * While the channel is always there, no announcement repeats the one
   * before it, the first differs from the URL last seen, and the last-seen
   * URL ends as the last URL announced.
   */
  lemma {:induction false} NoRepeatedAnnouncement(last: Option<string>, polls: seq<Poll>)
    requires ChannelAlwaysFound(polls)
    ensures var (final, sends) := WatchRun(last, polls);
      && (forall k :: 0 <= k < |sends| - 1 ==> sends[k] != sends[k + 1])
      && (sends != [] ==> Some(sends[0]) != last && final == Some(sends[|sends| - 1]))
      && (sends == [] ==> final == last)
    decreases |polls|
  {
    if polls != [] {
      var step := WatchStep(last, polls[0]);
      assert ChannelAlwaysFound(polls[1..]) by {
        forall k | 0 <= k < |polls[1..]| ensures polls[1..][k].guildFound && polls[1..][k].channelFound {
          assert polls[1..][k] == polls[k + 1];
        }
      }
      NoRepeatedAnnouncement(step.lastPostUrl, polls[1..]);
      var rest := WatchRun(step.lastPostUrl, polls[1..]);
      if step.sent.Some? {
        var sends := [step.sent.value] + rest.1;
        assert sends[1..] == rest.1;
      } else {
        assert step.lastPostUrl == last;
      }
    }
  }

  /**
   * Without the channel guarantee an announcement can repeat: the URL seen
   * while the channel was missing replaces the last one announced.
   */
  lemma RepeatAfterMissingChannel()
    ensures WatchRun(None, [Poll(Some("a"), true, true), Poll(Some("b"), true, false), Poll(Some("a"), true, true)]).1
         == ["a", "a"]
  {
    var polls := [Poll(Some("a"), true, true), Poll(Some("b"), true, false), Poll(Some("a"), true, true)];
    assert polls[1..] == [Poll(Some("b"), true, false), Poll(Some("a"), true, true)];
    assert polls[1..][1..] == [Poll(Some("a"), true, true)];
    assert WatchStep(Some("b"), Poll(Some("a"), true, true)).sent == Some("a");
    assert WatchStep(Some("a"), Poll(Some("b"), true, false)) == Step(Some("b"), None);
  }

  class ThreadsWatcher {
    /** The last post URL seen (null at start). */
    var lastPostUrl: Option<string>
    /** Everything posted to the `slightlydelayeddrops` channel, oldest first. */
    var outbox: seq<string>

    constructor()
      ensures lastPostUrl == None && outbox == []
    {
      lastPostUrl := None;
      outbox := [];
    }

    /** `checkForNewPosts`: one poll against the last-seen URL. */
    method CheckForNewPosts(p: Poll)
      modifies this
      ensures var step := WatchStep(old(lastPostUrl), p);
        && lastPostUrl == step.lastPostUrl
        && outbox == old(outbox) + (if step.sent.Some? then [Announcement(step.sent.value)] else [])
    {
      if p.scraped.None? || p.scraped.value == "" {
        return;
      }
      var latest := p.scraped.value;
      if Some(latest) != lastPostUrl {
        lastPostUrl := Some(latest);
        if !p.guildFound {
          return;
        }
        if !p.channelFound {
          return;
        }
        outbox := outbox + [Announcement(latest)];
      }
    }
  }

  /** From the initial state, the first URL scraped always counts as new. */
  lemma FirstScrapeIsNew(p: Poll)
    requires Found(p)
    ensures WatchStep(None, p).lastPostUrl == p.scraped
    ensures p.guildFound && p.channelFound ==> WatchStep(None, p).sent == p.scraped
  {
  }
}
