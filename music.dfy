/**
 * commands/music.js: `!play_music <title> - <artist>`. The arguments are
 * joined, split at the first ` - ` into title and artist, and the song is
 * searched for as `title artist`. The search, the audio stream and the voice
 * connection are outside the model: the search's answer is a parameter.
 */
module Music {
  import opened Text
  import opened LazySplit

  const UsageReply := "Please specify the song title and artist. Usage: `!play_music <title> - <artist>`"
  const InvalidFormatReply := "Invalid format. Use: `!play_music <title> - <artist>`"
  const NeedVoiceReply := "You need to be in a voice channel to play music!"
  const NoResultsReply := "No results found for the specified song."
  const PlayFailedReply := "An error occurred while trying to play the song."

  /** What searching and starting playback gives: no hit, the first hit's title, or an exception. */
  datatype SearchResult = NoResults | FirstResult(songTitle: string) | Failed

  /** The search query issued, if any, and the message sent. */
  datatype Outcome = Outcome(query: Option<string>, reply: string)

  function NowPlaying(songTitle: string, artist: string): string
  {
    "\U{1F3B5} Now playing: **" + songTitle + "** by **" + artist + "**"
  }

  /** `execute` (music.js:20-86); `inVoice` says whether the author is in a voice channel. */
  function PlayMusic(args: seq<string>, inVoice: bool, search: string -> SearchResult): (o: Outcome)
    ensures Join(args, " ") == "" ==> o == Outcome(None, UsageReply)
    ensures Join(args, " ") != "" && Match(MusicTail, Join(args, " ")).None? ==> o == Outcome(None, InvalidFormatReply)
    ensures Join(args, " ") != "" && Match(MusicTail, Join(args, " ")).Some? && !inVoice ==> o == Outcome(None, NeedVoiceReply)
    ensures o.query.Some? <==> Join(args, " ") != "" && Match(MusicTail, Join(args, " ")).Some? && inVoice
    ensures o.query.Some? ==>
              var (title, artist) := Match(MusicTail, Join(args, " ")).value;
              && o.query.value == title + " " + artist
              && o.reply == (match search(o.query.value)
                             case NoResults => NoResultsReply
                             case Failed => PlayFailedReply
                             case FirstResult(songTitle) => NowPlaying(songTitle, artist))
  {
    var input := Join(args, " ");
    if input == "" then Outcome(None, UsageReply)
    else
      match Match(MusicTail, input)
      case None => Outcome(None, InvalidFormatReply)
      case Some((title, artist)) =>
        if !inVoice then Outcome(None, NeedVoiceReply)
        else
          var searchQuery := title + " " + artist;
          match search(searchQuery)
          case NoResults => Outcome(Some(searchQuery), NoResultsReply)
          case Failed => Outcome(Some(searchQuery), PlayFailedReply)
          case FirstResult(songTitle) => Outcome(Some(searchQuery), NowPlaying(songTitle, artist))
  }

  /**
   * The title is the text before the first separator and the artist all the
   * rest, even when the rest holds another ` - `.
   */
  lemma TitleBeforeFirstSeparator(title: string, artist: string, search: string -> SearchResult)
    requires NoLineTerminator(title) && NoSeparatorIn(title)
    requires NoLineTerminator(artist) && |artist| >= 1
    ensures Match(MusicTail, title + " - " + artist) == Some((title, artist))
    ensures PlayMusic([title + " - " + artist], true, search).query == Some(title + " " + artist)
  {
    MatchAtFirstSeparator(MusicTail, title, artist);
    assert Join([title + " - " + artist], " ") == title + " - " + artist;
  }

  /** When the separator is written with single spaces, title ` - ` artist is the input again. */
  lemma TitleArtistRebuild(input: string)
    requires Match(MusicTail, input).Some?
    ensures var (title, artist) := Match(MusicTail, input).value;
      input[|title|] == ' ' && input[|title| + 2] == ' ' ==> input == title + " - " + artist
  {
    MatchRebuilds(MusicTail, input);
    var (title, artist) := Match(MusicTail, input).value;
    if input[|title|] == ' ' && input[|title| + 2] == ' ' {
      assert input[|title|..|title| + 3] == " - ";
    }
  }
}
