/**
 * commands/news.js: `!news <category> [location]`. The category is
 * lower-cased, a location longer than two characters is turned into a
 * lower-case ISO country code (outside the weather category), and the top
 * five headlines are listed. The country-name lookup (`getCode`) and the
 * headline request are parameters.
 */
module News {
  import opened Text

  const UsageReply := "Please specify a category. Usage: `!news <category> [location]`"
  const FetchFailedReply := "An error occurred while fetching the news."

  datatype Article = Article(title: string, url: string)

  /** The request parameters; `country` only when there is a location. */
  datatype NewsParams = NewsParams(category: string, country: Option<string>)

  /** The request made, if any, and the message sent. */
  datatype Outcome = Outcome(request: Option<NewsParams>, reply: string)

  /** The location after the ISO rule, or the lookup's failure message. */
  datatype Location = Location(text: string) | NoIsoCode(reply: string)

  /**
   * A location longer than two characters, outside `weather`, becomes the
   * lower-cased ISO code; shorter ones are kept as written.
   */
  function ResolveLocation(category: string, location: string, getCode: string -> Option<string>): (r: Location)
    ensures category == "weather" || |location| <= 2 ==> r == Location(location)
    ensures category != "weather" && |location| > 2 && getCode(location).None? ==>
              r == NoIsoCode("Unable to find ISO code for the location: **" + location + "**.")
    ensures category != "weather" && |location| > 2 && getCode(location).Some? ==>
              r == Location(ToLower(getCode(location).value)) && |r.text| == |getCode(location).value|
              && forall k :: 0 <= k < |r.text| ==> !('A' <= r.text[k] <= 'Z')
  {
    if category != "weather" && location != "" && |location| > 2 then
      match getCode(location)
      case None => NoIsoCode("Unable to find ISO code for the location: **" + location + "**.")
      case Some(isoCode) => Location(ToLower(isoCode))
    else Location(location)
  }

  function ArticleLine(number: nat, article: Article): string
  {
    NatToString(number) + ". [" + article.title + "](" + article.url + ")\n"
  }

  /** The numbered lines for `articles`, numbered from 1, built from the end. */
  function NumberedLines(articles: seq<Article>): string
    decreases |articles|
  {
    if articles == [] then ""
    else NumberedLines(articles[..|articles| - 1]) + ArticleLine(|articles|, articles[|articles| - 1])
  }

  /** The same lines as a list: line `k` is article `k` numbered `k + 1`. */
  function Lines(articles: seq<Article>): (lines: seq<string>)
    ensures |lines| == |articles|
    ensures forall k :: 0 <= k < |articles| ==> lines[k] == ArticleLine(k + 1, articles[k])
  {
    seq(|articles|, k requires 0 <= k < |articles| => ArticleLine(k + 1, articles[k]))
  }

  /** The accumulated text is the lines in order, each article numbered by its position. */
  lemma {:induction false} NumberedLinesInOrder(articles: seq<Article>)
    ensures NumberedLines(articles) == Concat(Lines(articles))
    decreases |articles|
  {
    if articles != [] {
      var front := articles[..|articles| - 1];
      NumberedLinesInOrder(front);
      assert Lines(articles) == Lines(front) + [ArticleLine(|articles|, articles[|articles| - 1])];
      ConcatAppend(Lines(front), ArticleLine(|articles|, articles[|articles| - 1]));
    }
  }

  lemma NumberedLinesStep(articles: seq<Article>, index: nat)
    requires index < |articles|
    ensures NumberedLines(articles[..index + 1])
              == NumberedLines(articles[..index]) + ArticleLine(index + 1, articles[index])
  {
    assert articles[..index + 1][..index] == articles[..index];
  }

  function Place(location: string): string
  {
    if location == "" then "Global" else location
  }

  /** The header and `forEach` that build the reply (news.js:55-58). */
  method FormatTopNews(category: string, location: string, articles: seq<Article>) returns (response: string)
    ensures response == "\U{1F4F0} **Top News in " + category + " (" + Place(location) + "):**\n" + Concat(Lines(articles))
  {
    var header := "\U{1F4F0} **Top News in " + category + " (" + Place(location) + "):**\n";
    response := header;
    var index := 0;
    while index < |articles|
      invariant 0 <= index <= |articles|
      invariant response == header + NumberedLines(articles[..index])
    {
      NumberedLinesStep(articles, index);
      AppendAssoc(header, NumberedLines(articles[..index]), ArticleLine(index + 1, articles[index]));
      response := response + ArticleLine(index + 1, articles[index]);
      index := index + 1;
    }
    assert articles[..|articles|] == articles;
    NumberedLinesInOrder(articles);
  }

  function Top5(articles: seq<Article>): (top: seq<Article>)
    ensures |top| <= 5 && |top| <= |articles| && top == articles[..|top|]
    ensures |articles| >= 5 ==> |top| == 5
    ensures |articles| < 5 ==> top == articles
  {
    if |articles| > 5 then articles[..5] else articles
  }

  /**
   * `execute` (news.js:21-67). `fetch` answers a request with the headlines,
   * or None when the request fails.
   */
  method News(args: seq<string>, getCode: string -> Option<string>, fetch: NewsParams -> Option<seq<Article>>)
    returns (o: Outcome)
    ensures |args| == 0 || args[0] == "" ==> o == Outcome(None, UsageReply)
    ensures o.request.Some? ==>
      && |args| >= 1 && o.request.value.category == ToLower(args[0])
      && ResolveLocation(o.request.value.category, Join(args[1..], " "), getCode).Location?
      && (var resolved := ResolveLocation(o.request.value.category, Join(args[1..], " "), getCode).text;
          o.request.value.country == if resolved == "" then None else Some(resolved))
    ensures o.request.None? && |args| >= 1 && args[0] != "" ==>
      ResolveLocation(ToLower(args[0]), Join(args[1..], " "), getCode).NoIsoCode?
    ensures o.request.None? && |args| >= 1 && args[0] != "" ==>
      o.reply == ResolveLocation(ToLower(args[0]), Join(args[1..], " "), getCode).reply
    ensures o.request.Some? && fetch(o.request.value).None? ==> o.reply == FetchFailedReply
    ensures o.request.Some? && fetch(o.request.value) == Some([]) ==>
      o.reply == "No news found for category **" + o.request.value.category + "** in **"
                 + Place(ResolveLocation(o.request.value.category, Join(args[1..], " "), getCode).text) + "**."
    ensures o.request.Some? && fetch(o.request.value).Some? && fetch(o.request.value).value != [] ==>
      var place := Place(ResolveLocation(o.request.value.category, Join(args[1..], " "), getCode).text);
      o.reply == "\U{1F4F0} **Top News in " + o.request.value.category + " (" + place + "):**\n"
                 + Concat(Lines(Top5(fetch(o.request.value).value)))
  {
    if |args| == 0 || args[0] == "" {
      return Outcome(None, UsageReply);
    }
    var category := ToLower(args[0]);
    var location := Join(args[1..], " ");
    match ResolveLocation(category, location, getCode) {
      case NoIsoCode(reply) =>
        return Outcome(None, reply);
      case Location(resolved) =>
        location := resolved;
    }
    var params := NewsParams(category, if location != "" then Some(location) else None);
    match fetch(params) {
      case None =>
        return Outcome(Some(params), FetchFailedReply);
      case Some(all) =>
        var articles := Top5(all);
        if |articles| == 0 {
          return Outcome(Some(params), "No news found for category **" + category + "** in **" + Place(location) + "**.");
        }
        var response := FormatTopNews(category, location, articles);
        return Outcome(Some(params), response);
    }
  }
}
