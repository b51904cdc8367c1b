/**
 * commands/help.js: `!help` sends the command list read from
 * `command-list.txt`; `!help <name>` sends the details of one command, looked
 * up by its lower-cased name. Reading the file is a parameter.
 */
module Help {
  import opened Text

  const ListFailedReply := "An error occurred while fetching the command list. Please try again later."

  // The details text of each command, exactly as the template literals in help.js:26-91.
  const SetReminderDetails := "\n            **!set_reminder**\n            - Sets a reminder for a specific date and time.\n            - **Usage**: `!set_reminder <date/time> - <message> [-e]`\n            - **Example**: \n            - `!set_reminder 2025-04-18 14:30 - Attend the meeting`\n            - `!set_reminder 2025-04-18 14:30 - Attend the meeting -e` (mentions @everyone)\n          "
  const PlayMusicDetails := "\n            **!play_music**\n            - Plays a song in the user's current voice channel based on the provided title and artist.\n            - **Usage**: `!play_music <title> - <artist>`\n            - **Example**: `!play_music Shape of You - Ed Sheeran`\n          "
  const FindVideoDetails := "\n            **!find_video**\n            - Searches YouTube for videos based on a query and returns the top 5 results.\n            - **Usage**: `!find_video <search query>`\n            - **Example**: `!find_video lo-fi beats`\n          "
  const FindSongDetails := "\n            **!find_song**\n            - Finds a song based on provided lyrics.\n            - **Usage**: `!find_song <lyrics>`\n            - **Example**: `!find_song I got a feeling that tonight's gonna be a good night`\n          "
  const CheckMuteTimeDetails := "\n            **!check_mute_time**\n            - Checks the total mute time for a user for the current day.\n            - **Usage**: `!check_mute_time <username>`\n            - **Example**: `!check_mute_time JohnDoe`\n          "
  const CheckMutedDetails := "\n            **!check_muted**\n            - Checks if a user is currently muted and for how long.\n            - **Usage**: `!check_muted <username>`\n            - **Example**: `!check_muted JohnDoe`\n          "
  const NewsDetails := "\n            **!news**\n            - Fetches top news headlines or weather information based on the specified category and location.\n            - **Categories**: `business`, `entertainment`, `general`, `health`, `science`, `sports`, `technology`, `weather`\n            - **Usage**: `!news <category> [location]`\n            - **Examples**:\n            - `!news sports Canada` (Fetches sports news for Canada)\n            - `!news technology` (Fetches global technology news)\n            - `!news weather Toronto` (Fetches weather information for Toronto)\n          "
  const WeatherDetails := "\n            **!weather**\n            - Fetches the current weather for a specified location.\n            - **Usage**: `!weather <location>`\n            - **Example**: `!weather New York`\n          "
  const PokemonCardDetails := "\n            **!pokemon_card**\n            - Analyzes Pok\U{E9}mon card price trends and predicts future prices.\n            - **Usage**: `!pokemon_card <card name> <card number>`\n            - **Example**: `!pokemon_card Charizard EX 223`\n          "
  const StockDetails := "\n            **!stock**\n            - Analyzes stock data and provides insights.\n            - **Usage**: `!stock <symbol>`\n            - **Example**: `!stock AAPL`\n          "

  /** The names of the commands that have details, in the order they are declared. */
  const CommandNames: seq<string> := ["!set_reminder", "!play_music", "!find_video", "!find_song", "!check_mute_time", "!check_muted", "!news", "!weather", "!pokemon_card", "!stock"]

  /** The own properties of the `commandDetails` object: the details of `name`, if it is a key. */
  function CommandDetails(name: string): Option<string>
  {
    if name == "!set_reminder" then Some(SetReminderDetails)
    else if name == "!play_music" then Some(PlayMusicDetails)
    else if name == "!find_video" then Some(FindVideoDetails)
    else if name == "!find_song" then Some(FindSongDetails)
    else if name == "!check_mute_time" then Some(CheckMuteTimeDetails)
    else if name == "!check_muted" then Some(CheckMutedDetails)
    else if name == "!news" then Some(NewsDetails)
    else if name == "!weather" then Some(WeatherDetails)
    else if name == "!pokemon_card" then Some(PokemonCardDetails)
    else if name == "!stock" then Some(StockDetails)
    else None
  }

  function NotFoundReply(name: string): string
  {
    "Command **" + name + "** not found. Use `!help` to see the list of available commands."
  }

  /** What the command does with the channel. */
  datatype Reply =
    | Send(text: string)
    | Unhandled(reason: string)   // a rejected promise that escapes the `try`

  /**
   * `execute` (help.js:18-110) with the lookup restricted to the table's own
   * names. `commandList` is the file's contents, or None when reading fails.
   */
  function Help(args: seq<string>, commandList: Option<string>): (r: Reply)
    ensures r.Send?
    ensures |args| == 0 && commandList.Some? ==> r.text == commandList.value
    ensures |args| == 0 && commandList.None? ==> r.text == ListFailedReply
    ensures |args| > 0 && CommandDetails(ToLower(args[0])).Some? ==> r.text == CommandDetails(ToLower(args[0])).value
    ensures |args| > 0 && CommandDetails(ToLower(args[0])).None? ==> r.text == NotFoundReply(ToLower(args[0]))
  {
    if |args| > 0 then
      var commandName := ToLower(args[0]);
      match CommandDetails(commandName)
      case Some(details) => Send(details)
      case None => Send(NotFoundReply(commandName))
    else
      match commandList
      case Some(list) => Send(list)
      case None => Send(ListFailedReply)
  }

  /** Upper-case letters in the name do not matter, and neither does anything after it. */
  lemma HelpIgnoresCaseAndExtraArgs(name: string, rest: seq<string>, list: Option<string>)
    ensures Help([name] + rest, list) == Help([ToLower(name)], None)
  {
    var lower := ToLower(name);
    assert ToLower(lower) == lower;
  }

  lemma CommandNamesDistinct()
    ensures |CommandNames| == 10
    ensures forall i, j :: 0 <= i < j < |CommandNames| ==> CommandNames[i] != CommandNames[j]
  {
  }

  lemma CommandNamesAreKeys()
    ensures forall name :: CommandDetails(name).Some? <==> name in CommandNames
  {
  }

  lemma CommandNamesShape()
    ensures forall name :: name in CommandNames ==> |name| >= 2 && name[0] == '!' && ToLower(name) == name
  {
  }

  /**
   * The table has exactly the ten declared names as keys, all distinct, each
   * starting with `!` and already lower-case.
   */
  lemma TenCommands()
    ensures |CommandNames| == 10
    ensures forall i, j :: 0 <= i < j < |CommandNames| ==> CommandNames[i] != CommandNames[j]
    ensures forall name :: CommandDetails(name).Some? <==> name in CommandNames
    ensures forall name :: CommandDetails(name).Some? ==> |name| >= 2 && name[0] == '!' && ToLower(name) == name
  {
    CommandNamesDistinct();
    CommandNamesAreKeys();
    CommandNamesShape();
  }

  /** A name given without the leading `!` is never found, so `!help news` gets the not-found reply. */
  lemma NameWithoutBangNotFound(args: seq<string>, list: Option<string>)
    requires |args| > 0 && (args[0] == [] || args[0][0] != '!')
    ensures Help(args, list) == Send(NotFoundReply(ToLower(args[0])))
  {
    var lower := ToLower(args[0]);
    if CommandDetails(lower).Some? {
      CommandNamesAreKeys();
      CommandNamesShape();
      assert false;
    }
  }

  /**
   * The value `commandDetails[name]` gives in JavaScript: an own property of
   * the table, one of the two lower-case names that every object inherits
   * (`constructor`, a function, and `__proto__`, an object), or `undefined`.
   */
  datatype Property = OwnText(text: string) | InheritedObject(what: string) | Undefined

  function PropertyLookup(name: string): (p: Property)
    ensures p.OwnText? <==> CommandDetails(name).Some?
    ensures p.OwnText? ==> p.text == CommandDetails(name).value
    ensures p.InheritedObject? <==> name == "constructor" || name == "__proto__"
  {
    match CommandDetails(name)
    case Some(text) => OwnText(text)
    case None =>
      if name == "constructor" then InheritedObject("Object")
      else if name == "__proto__" then InheritedObject("Object.prototype")
      else Undefined
  }

  /** JavaScript truthiness of the looked-up value. */
  predicate Truthy(p: Property)
  {
    match p
    case OwnText(text) => text != ""
    case InheritedObject(_) => true
    case Undefined => false
  }

  /**
   * `execute` as written: the lookup in help.js:95 also finds inherited
   * properties, and `channel.send` is then given a function or an object with
   * no content, which it rejects. The returned promise is not awaited, so the
   * rejection escapes the `catch` and no reply is sent at all.
   */
  function HelpAsWritten(args: seq<string>, commandList: Option<string>): (r: Reply)
    ensures |args| > 0 && (ToLower(args[0]) == "constructor" || ToLower(args[0]) == "__proto__") ==> r.Unhandled?
    ensures r.Unhandled? ==> |args| > 0 && CommandDetails(ToLower(args[0])).None?
  {
    if |args| > 0 then
      var commandName := ToLower(args[0]);
      var property := PropertyLookup(commandName);
      if Truthy(property) then
        match property
        case OwnText(text) => Send(text)
        case InheritedObject(what) => Unhandled("channel.send rejects " + what + " as message content")
        case Undefined => Send(NotFoundReply(commandName))
      else Send(NotFoundReply(commandName))
    else
      match commandList
      case Some(list) => Send(list)
      case None => Send(ListFailedReply)
  }

  /** `!help constructor` gets no reply as written, where the not-found reply is evidently meant. */
  lemma InheritedNameAsWritten(list: Option<string>)
    ensures HelpAsWritten(["constructor"], list).Unhandled?
    ensures HelpAsWritten(["__proto__"], list).Unhandled?
    ensures Help(["constructor"], list) == Send(NotFoundReply("constructor"))
  {
    assert ToLower("constructor") == "constructor";
    assert ToLower("__proto__") == "__proto__";
  }

  /** Apart from the two inherited names, the as-written lookup behaves like the corrected one. */
  lemma AsWrittenAgreesElsewhere(args: seq<string>, list: Option<string>)
    requires |args| > 0 ==> ToLower(args[0]) != "constructor" && ToLower(args[0]) != "__proto__"
    ensures HelpAsWritten(args, list) == Help(args, list)
  {
    if |args| > 0 && CommandDetails(ToLower(args[0])).Some? {
      CommandDetailsNonEmpty(ToLower(args[0]));
    }
  }

  lemma CommandDetailsNonEmpty(name: string)
    requires CommandDetails(name).Some?
    ensures CommandDetails(name).value != ""
  {
  }
}
