# Cortex, modelled in Dafny

Cortex is a Discord bot written in JavaScript. This project models the
parts of it that decide what the bot says and what it remembers, and proves
properties of them. The modelled parts are:

- Voice-mute bookkeeping (`commands/muted.js`). Two per-user maps track when a
  user muted and how long they have been muted in total. A formatter renders
  durations as `HH:MM:SS`. Two lookup commands report on them.
- The two `messageCreate` handlers (`index.js`, `src/index.js`):
  - the bot-author filter;
  - the case-sensitive wake word;
  - the image sub-paths;
  - username sanitising and the conversation sent to the chat model;
  - the greedy loop that splits replies longer than 2000 characters;
  - the `check_muted` branch of `index.js`.
- Image search (`commands/imageScraper.js`): the stop-word filter, the
  results-page URL, and the choice of one `https` image with a fixed fallback.
- Two pollers:
  - the Pokébeach RSS poster (`commands/PokeNewsRSS.js`), which keeps a set of links it has sent;
  - the Threads watcher (`commands/SlightlyDelayedDrops.js`), which keeps the last post URL it saw.
- The command parsers and formatters:
  - `!set_reminder` and `!play_music`, which split at the first ` - ` with a lazy regular expression;
  - `!news`, with its ISO-code rule and top-5 numbered list;
  - the Pokémon TCG event list;
  - `!help`, with its table of command details.

Each handler is modelled as a function or method. It returns the effects
the handler has, in order: messages sent, replies, typing indicators, calls
to the models, and uncaught errors. Some things come from outside the bot:
the clock, the chat and image models, the browser, the RSS parser, date
parsing, country lookup and file reading. These become parameters. Module
`Text` holds the JavaScript string operations that the other modules share:

- `split` and `join`;
- ASCII `toLowerCase`;
- the `\s`, `\w` and `.` character classes;
- decimal numerals.

## Model

| member | source | states |
|---|---|---|
| Mute.ClockOf | commands/muted.js:17-21 | the hours, minutes and seconds `formatTime` computes with `Math.floor` and `%`; `ClockOfFields` states what they are |
| Mute.FormatTime | commands/muted.js:17-24 | `formatTime` itself: the three fields padded to two digits and joined by `:`; `FormatTimeRoundTrip` states what the text means |
| Mute.ClockOfFields | commands/muted.js:17-21 | for a non-negative duration, hours*3600 + minutes*60 + seconds is the whole seconds, with minutes and seconds in 0..59 |
| Mute.FormatTimeZero | commands/muted.js:23 | a zero duration formats as `00:00:00` |
| Mute.FieldNumeral | commands/muted.js:23 | each field is at least two digits, contains no `:`, and reads back as its value; from 10 up it is the plain numeral |
| Mute.ClockRoundTrip | commands/muted.js:23 | joining the three padded fields with `:` and splitting again gives three digit fields of width at least two that read back as hours, minutes and seconds; hours from 10 up are the plain numeral |
| Mute.FormatTimeRoundTrip | commands/muted.js:17-24 | the formatted text splits on `:` into exactly three digit fields of width at least two; their values give back the seconds, minutes and seconds are below 60, and hours are never truncated |
| Mute.VoiceStep | commands/muted.js:37-67 | a mute overwrites the start time and leaves the totals alone; an unmute with a start record removes it and adds `now - start` to the total (default 0); any other update changes nothing |
| Mute.DailyMuteTimeNeverDecreases | commands/muted.js:50-58 | over any run of updates in clock order, no total is deleted and none decreases |
| Mute.FindMember | commands/muted.js:121 | a member with that username, and None exactly when there is none |
| Mute.FindMemberFirst | commands/muted.js:121 | the member found comes before every other member with that username |
| Mute.MuteTracker.constructor | commands/muted.js:8-9 | both maps start empty |
| Mute.MuteTracker.HandleVoiceStateUpdate | commands/muted.js:37-67 | the new maps and the mute log are exactly `VoiceStep` of the old maps |
| Mute.MuteTracker.CheckMuteTime | commands/muted.js:114-128 | usage for a missing name, not-found for an unknown one, otherwise the formatted total, which is `00:00:00` for a user never unmuted |
| Mute.MuteTracker.CheckMuted | commands/muted.js:136-154 | usage, not-found, or "not currently muted" exactly when the member has no start record, otherwise the time since the start |
| Conversation.Wakes | index.js:52 | the wake test, `includes('cortex') || includes('Cortex')`; `UpperCaseDoesNotWake` and `WakesNonEmpty` state its consequences |
| Conversation.UpperCaseDoesNotWake | index.js:52 | `CORTEX` does not wake the bot and `Cortex` does |
| Conversation.WakesNonEmpty | index.js:62 | a waking message has at least six characters, so the empty-query guard never fires |
| Conversation.CollapseSpaces | index.js:80 | no white space remains |
| Conversation.CollapseSpaceFreeUnchanged | index.js:80 | text without white space is unchanged by the space replacement |
| Conversation.KeepWordOrSpace | index.js:80 | only word and white-space characters of the input remain |
| Conversation.KeepWordOnly | index.js:80 | text made only of word characters is unchanged by the character filter |
| Conversation.SanitizeUsername | index.js:80 | a sanitised name holds only `[A-Za-z0-9_]` |
| Conversation.SanitizeIdempotent | index.js:80 | sanitising twice is sanitising once, and a name made of word characters is kept as it is |
| Conversation.CollapseRun | index.js:80 | a run of white space between two space-free parts becomes exactly one `_` |
| Conversation.BuildConversation | index.js:73-89 | the system entry first, then one entry per fetched message, oldest first, with the same content; the role is `assistant` exactly for the bot's id and `user` otherwise; names are sanitised |
| Conversation.GreedyChunks | index.js:103-112 | the loop always sends at least one chunk |
| Conversation.GreedyChunksConcat | index.js:105-112 | the chunks concatenate to the gathered text plus every word followed by one space |
| Conversation.SpacedJoin | index.js:103-106 | every word followed by a space is the words joined by spaces plus one final space |
| Conversation.GreedyChunksFlushed | index.js:105-112 | every chunk sent inside the loop is over 1950 characters but would be at most 1950 without its last word and space; the final chunk is at most 1950 |
| Conversation.ChunkLongReply | index.js:102-113 | the chunks concatenate to exactly the reply plus one space; all but the last are flushed as above; the last, possibly empty, is at most 1950 |
| MainBot.AsksForImage | index.js:59-60 | any of the five image keywords occurs in the message |
| MainBot.ParseCheckMuted | index.js:119-130 | not a command exactly when the content does not start with `check_muted`; the name is missing exactly when there is no second space-separated token or it is empty; otherwise the name is that token, unknown when no member has it, and known with the id of the member `find` returns |
| MainBot.CheckMutedReadsSecondToken | index.js:120-121 | whatever follows the second token is ignored |
| MainBot.CheckMutedWithoutName | index.js:120-125 | `check_muted` with no space after it gives the usage line |
| MainBot.CheckMutedReply | index.js:119-138 | no reply for other messages, otherwise exactly one send; the whole seconds since the start when muted, and "not currently muted" exactly when there is no start record |
| MainBot.CheckMutedAsWritten | index.js:132 | as written, a known member leads to a ReferenceError; every other case agrees with `CheckMutedReply` for any map and clock |
| MainBot.CheckMutedAsWrittenThrows | index.js:127-133 | for any member's name the as-written branch throws, where the intended branch sends a reply |
| MainBot.OnMessageCreate | index.js:49-141 | bots get nothing. The image path acknowledges, searches `SearchUrl` and sends the selected image without the chat model; typing stays on if the search fails. The chat path starts typing, asks with a well-formed conversation and stops typing before the nap message, the chunks or the reply. Only a short reply and non-waking messages reach `check_muted` |
| ImageBot.AsksToGenerate | src/index.js:27 | the message wakes the bot and contains `generate image` |
| ImageBot.OnMessageCreate | src/index.js:24-91 | bots get nothing. Wake plus `generate image` asks the image model with the whole message and returns, replying with the URL or failing on the missing response. Other waking messages take the chat path with replies. Typing is cleared before any reply, nothing is sent with `send`, and non-waking messages get nothing |
| ImageScraper.CleanQuery | commands/imageScraper.js:6-16 | the words of the query split on spaces, filtered by the stop list, joined by single spaces; `CleanQueryWords` and `CleanQueryIdempotent` state its properties |
| ImageScraper.KeptWords | commands/imageScraper.js:7-14 | no kept word is in the stop list or holds `.`, and there are no more words than went in |
| ImageScraper.KeptWordsSubsequence | commands/imageScraper.js:7-15 | the kept words are an order-preserving subsequence of the dot-stripped input words |
| ImageScraper.RemoveStopwords | commands/imageScraper.js:6-16 | the loop returns exactly the cleaned query |
| ImageScraper.CleanQueryWords | commands/imageScraper.js:4-15 | every space-separated word of a cleaned query is free of dots and not a stop word |
| ImageScraper.CleanQueryIdempotent | commands/imageScraper.js:6-16 | cleaning a cleaned query changes nothing |
| ImageScraper.KeptWordsOfClean | commands/imageScraper.js:9-13 | words that are already clean are all kept, unchanged |
| ImageScraper.UnlistedWords | commands/imageScraper.js:4 | neither `Cortex` nor the empty word is in the stop list |
| ImageScraper.WakeWordCase | commands/imageScraper.js:4 | matching is case-sensitive: `cortex` is a stop word and `Cortex` is not |
| ImageScraper.SearchUrl | commands/imageScraper.js:24-28 | the URL is the Google Images prefix followed by the cleaned query with each space replaced by `+`, and contains no space after the prefix |
| ImageScraper.HttpsOnly | commands/imageScraper.js:58 | exactly the URLs that start with `https` are kept |
| ImageScraper.HttpsOnlyKeepsOrder | commands/imageScraper.js:58-63 | the kept URLs are a subsequence of the page's URLs, in page order, with every copy of an `https` URL kept |
| ImageScraper.SelectImage | commands/imageScraper.js:58-70 | element `r+3` of the https URLs when it exists, otherwise the fallback; either way it starts with `https` |
| LazySplit.MatchTailCaptures | commands/reminder.js:28 | the captured tail is non-empty and has no line terminator; a reminder tail loses a final `\s-\s-e` only when text remains before it |
| LazySplit.FirstMatch | commands/reminder.js:28 | the leftmost end of the lazy first group at which the rest of the pattern matches, or None when no end matches |
| LazySplit.Match | commands/music.js:29 | None exactly when the pattern matches at no position; otherwise the first group is the prefix ending at the leftmost matching separator, and the second group is what the tail captures after it |
| LazySplit.MatchAtFirstSeparator | commands/music.js:29-35 | with no earlier separator, the groups are the text before the first ` - ` and the text after it |
| LazySplit.MatchRebuilds | commands/music.js:29 | first group, separator and second group, plus a stripped flag for reminders, rebuild the input |
| Reminder.StripFlag | commands/reminder.js:38-40 | a final `\s-\s-e` is removed and nothing else changes |
| Reminder.MentionMarks | commands/reminder.js:50-57 | the reminder starts with `@everyone ` and the confirmation ends with ` (🚨)` exactly when everyone is to be mentioned |
| Reminder.SetReminder | commands/reminder.js:19-58 | usage exactly for empty input, invalid format exactly when the pattern fails, invalid date exactly when parsing fails; when scheduled, the job is scheduled for the parsed date, and `@everyone` and ` (🚨)` appear exactly when the input ends with `-e` |
| Reminder.ReminderFromParts | commands/reminder.js:28-57 | for `date - message [ - -e]`, the date text is what gets parsed, the message loses the flag, and everyone is mentioned when the input ends with `-e` |
| Reminder.TailOfMessage | commands/reminder.js:28 | the tail `message` or `message - -e` captures exactly `message` |
| Reminder.MentionOfParts | commands/reminder.js:35 | the input ends with `-e` exactly when the flag is given or the message itself ends with `-e` |
| Reminder.NoSeparatorIsInvalid | commands/reminder.js:28-31 | input with no `\s-\s` anywhere gives the format error |
| Music.PlayMusic | commands/music.js:20-86 | usage for empty input, a format error when the split fails, and no search outside a voice channel; otherwise the query is `title artist` and the reply follows the search result |
| Music.TitleBeforeFirstSeparator | commands/music.js:29-45 | the title is the text before the first ` - `, the artist all the rest (which may contain ` - `), and the query is `title artist` |
| Music.TitleArtistRebuild | commands/music.js:29 | title + ` - ` + artist rebuilds the input when the separator is written with single spaces |
| News.ResolveLocation | commands/news.js:31-38 | locations of two characters or fewer, or any location for `weather`, pass through unchanged; a failed lookup gives the ISO error; otherwise the result is the looked-up code lower-cased |
| News.Lines | commands/news.js:56-58 | line `k` is article `k` numbered `k + 1` |
| News.NumberedLinesInOrder | commands/news.js:55-58 | the accumulated text is the numbered lines in order |
| News.FormatTopNews | commands/news.js:55-58 | the response is the header (with `Global` for no location) followed by the numbered lines |
| News.Top5 | commands/news.js:47 | at most five articles, the first ones, in order |
| News.News | commands/news.js:21-67 | usage for a missing category, and no request after a failed ISO lookup, whose reply is the ISO error; the category is lower-cased and `country` is present exactly when the resolved location is non-empty; the reply is the fetch error, "No news found", or the top-5 list |
| PokemonEvents.EventAddress | commands/PokemonEvent.js:28 | the venue's address, or `Address not available` without a venue |
| PokemonEvents.EventPrice | commands/PokemonEvent.js:29-31 | `Free`, else `$` + major value, else `Price not available`; within the fields an `ApiEvent` holds, mapping throws exactly when a non-free event has no ticket availability |
| PokemonEvents.MapEvents | commands/PokemonEvent.js:25-33 | the events are mapped one for one, in order, with the address and price fallbacks; the result fails exactly when one of them throws |
| PokemonEvents.FetchPokemonEvents | commands/PokemonEvent.js:7-38 | at most five events, the first ones, in API order; every failure is the one generic error |
| PokemonEvents.Entries | commands/PokemonEvent.js:48-54 | entry `k` is event `k` numbered `k + 1` |
| PokemonEvents.FormatEventsForDiscord | commands/PokemonEvent.js:41-56 | no events gives "No Pokémon TCG events found near CITY."; otherwise the header followed by the entries joined by blank lines; it starts with 🎉 exactly when there are events |
| PokemonEvents.UnpricedEventInTopFiveFails | commands/PokemonEvent.js:24-37 | one unpriceable event among the first five fails the whole fetch |
| PokemonEvents.EventsAfterFifthIgnored | commands/PokemonEvent.js:24-25 | events after the fifth are never looked at |
| PokeNews.PostMessage | commands/PokeNewsRSS.js:30-36 | the bold title, the link, and the image URL on a third line when there is one; `PostMessageLines` states that the lines give the fields back |
| PokeNews.PostMessageLines | commands/PokeNewsRSS.js:30-36 | the message's lines are `**title**`, the link, and the image URL exactly when there is one |
| PokeNews.Run | commands/PokeNewsRSS.js:27-41 | the `for … of` loop over the feed, skipping seen links and stopping at a send that throws; `RunPostsUnseenOnce` and `RunRecordsFeed` state its properties |
| PokeNews.RunPostsUnseenOnce | commands/PokeNewsRSS.js:27-41 | a run posts only links unseen before it, no link twice, in feed order; the seen set grows by exactly the posted links |
| PokeNews.RunRecordsFeed | commands/PokeNewsRSS.js:27-45 | the set only grows; without a failure every link of the feed is recorded; after a failed send that link is still unrecorded, so it is retried |
| PokeNews.PokeNewsFeed.constructor | commands/PokeNewsRSS.js:4 | the seen set and the outbox start empty |
| PokeNews.PokeNewsFeed.FetchAndSendNews | commands/PokeNewsRSS.js:24-46 | a failed fetch changes nothing; otherwise the set and the appended messages are those of the run |
| PokeNews.PokeNewsFeed.Start | commands/PokeNewsRSS.js:11-53 | without the channel nothing happens; otherwise one run of the feed |
| ThreadsWatch.WatchStep | commands/SlightlyDelayedDrops.js:50-85 | a failed or empty scrape changes nothing; a new URL is recorded before the guild and channel checks; a send happens exactly for a new URL with guild and channel present |
| ThreadsWatch.NoRepeatedAnnouncement | commands/SlightlyDelayedDrops.js:59-77 | while the channel is always found, no announcement repeats the one before it, and the last-seen URL is the last one announced |
| ThreadsWatch.RepeatAfterMissingChannel | commands/SlightlyDelayedDrops.js:59-75 | the scrapes a (channel present), b (channel missing), a (channel present) announce `a` twice |
| ThreadsWatch.ThreadsWatcher.constructor | commands/SlightlyDelayedDrops.js:22 | the last post URL starts as null |
| ThreadsWatch.ThreadsWatcher.CheckForNewPosts | commands/SlightlyDelayedDrops.js:50-85 | the new last-seen URL and the appended `New post: ` message are those of `WatchStep` |
| ThreadsWatch.FirstScrapeIsNew | commands/SlightlyDelayedDrops.js:22-60 | from the initial state the first URL found is always new |
| Help.CommandDetails | commands/help.js:25-92 | the own properties of `commandDetails`: the ten names and their texts; `CommandNamesAreKeys` and `CommandDetailsNonEmpty` state its properties |
| Help.Help | commands/help.js:18-110 | the file's contents, or the generic error when reading fails; with arguments, the details of the lower-cased first argument when the table has it, otherwise the not-found reply naming it |
| Help.HelpIgnoresCaseAndExtraArgs | commands/help.js:21-22 | the reply depends only on the lower-cased first argument |
| Help.CommandNamesDistinct | commands/help.js:25-92 | the table declares ten distinct names |
| Help.CommandNamesAreKeys | commands/help.js:25-92 | the table's keys are exactly the declared names |
| Help.CommandNamesShape | commands/help.js:25-92 | every name starts with `!` and is already lower case |
| Help.TenCommands | commands/help.js:25-92 | exactly ten distinct keys, all lower case and `!`-prefixed |
| Help.NameWithoutBangNotFound | commands/help.js:95-98 | a name without the leading `!` always gets the not-found reply |
| Help.CommandDetailsNonEmpty | commands/help.js:26-91 | every details text is non-empty, hence truthy |
| Help.PropertyLookup | commands/help.js:95 | the object lookup finds the table's own texts, and also the inherited `constructor` and `__proto__` |
| Help.HelpAsWritten | commands/help.js:94-99 | as written, `constructor` and `__proto__` send a non-text value, which is rejected outside the `catch` |
| Help.InheritedNameAsWritten | commands/help.js:95-96 | `!help constructor` and `!help __proto__` get no reply as written; the corrected lookup sends the not-found reply |
| Help.AsWrittenAgreesElsewhere | commands/help.js:94-99 | for every other input the as-written and corrected lookups agree |
| Text.ToLower | commands/help.js:22 | same length, each character lower-cased |
| Text.JoinSplitRemove | commands/imageScraper.js:10 | `split(".").join("")` removes every `.` |
| Text.JoinSplitReplace | commands/imageScraper.js:25 | `split(' ').join('+')` replaces every space by `+` |

## Left out

- `node-schedule` is modelled as the `Scheduled` outcome of `Reminder.SetReminder`: the date the job is given and the text it will send. Running the job later is not modelled.
- Reminder.SetReminder: a parsed date that already lies in the past is scheduled like any other, and the confirmation is still sent; `node-schedule` never runs a job for a past date, so that reminder is never delivered. The model does not compare the date with the clock.
- PokemonEvents.EventPrice: an event's `name.text`, `start.local` and `venue.address` are typed as present in `ApiEvent`. A missing `name` or `start`, or a `venue` without an `address`, also throws in `map` and fails the whole fetch; the model does not capture those throws.
- MainBot.OnMessageCreate and ImageBot.OnMessageCreate: the fetch of the last ten messages is given as a list and cannot fail. When `messages.fetch` rejects (index.js:76, src/index.js:48), the handler ends with the typing interval still running, and the model does not show this.
- Discord client set-up, login, event wiring, embeds (`sendMuteLog`) and the `setInterval` timers are left out. The model covers one handler call or one poll at a time.
- Handlers that share the module-level maps and sets can interleave across `await`; the model runs everything in sequence.
- The OpenAI chat and image calls, Puppeteer browsing, the RSS parser, YouTube search and audio playback, `new Date`, `toLocaleString`, `getCode`, `fs.readFileSync` and `Math.random` are parameters. Their answers are given, not computed.
- The voice-state handler in `index.js` (lines 25-47) is not modelled on its own. It repeats `commands/muted.js`, and it also uses the undeclared `mutedUsers`.
- `milesToKilometers` in `commands/PokemonEvent.js` is floating point. The distance text is given.
- `commands/stock.js`, `commands/pokemonCards.js`, `commands/gradeCard.js`, `commands/weather.js`, `commands/cortex.js` and `Cortex.py` are not part of this model.
- The `!help` list path sends the file's contents without awaiting the send. A rejected send there (for example, an empty file) is not modelled.
- Text.ToLower: lower-cases ASCII letters only, where JavaScript's `toLowerCase` also maps other Unicode letters.
- Lengths count Unicode characters, where JavaScript counts UTF-16 code units. The 2000- and 1950-character limits and the `length > 2` location rule can therefore differ for text outside the Basic Multilingual Plane.
- Numbers are unbounded integers. JavaScript numbers lose precision above 2^53, and that is not modelled.
- Mute.DailyMuteTimeNeverDecreases: assumes the clock never runs backwards, i.e. no start time lies after a later event. With a backwards clock, an unmute adds a negative duration.
- ThreadsWatch.NoRepeatedAnnouncement: holds only while the guild and channel are found at every poll. A URL seen while the channel is missing replaces the last one announced, and `ThreadsWatch.RepeatAfterMissingChannel` shows the same URL announced twice.
- MainBot.OnMessageCreate: the `index.js` image path keeps the typing interval running when the search throws, as the source does. The model shows this as a `Fault` with no `StopTyping`.

## Findings

| source | as written | input that shows it | evidently intended | confidence | as-written member | corrected member |
|---|---|---|---|---|---|---|
| index.js:132 | `check_muted` reads `mutedUsers`, which `index.js` never declares, so the lookup throws a ReferenceError once a member is found | `check_muted alice`, where `alice` is a member of the guild | report the member's muted time from the muted-since map | not executed; high | MainBot.CheckMutedAsWritten | MainBot.CheckMutedReply |
| commands/help.js:95 | the plain-object lookup `commandDetails[commandName]` is also truthy for the inherited lower-case names `constructor` and `__proto__`; `channel.send` is then given a function or an object, and the returned promise rejects outside the `try` | `!help constructor` | only the ten table names have details; anything else gets the not-found reply | not executed; medium | Help.HelpAsWritten | Help.Help |
