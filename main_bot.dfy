/**
 * index.js: the `messageCreate` handler of the main bot. Bot authors are
 * ignored; a message containing `cortex` or `Cortex` wakes the bot, which
 * either searches for an image (when an image keyword is present) or asks the
 * chat model and sends its answer; the `check_muted` command is handled after
 * the wake branch whenever that branch did not return.
 */
module MainBot {
  import opened Text
  import opened Conversation
  import Mute
  import ImageScraper

  /** Any of the five image keywords (index.js:59-60). */
  predicate AsksForImage(content: string)
  {
    || Contains(content, "generate image") || Contains(content, "show picture")
    || Contains(content, "show image") || Contains(content, "generate picture")
    || Contains(content, "show me")
  }

  const ImageAck := "Sure! Here you go!"
  const NapReply := "I'm taking a nap, the noggin's foggy... Ask again later..."
  const CheckMutedUsage := "Please specify a username. Usage: `check_muted <username>`"
  const MutedUsersUndeclared := "ReferenceError: mutedUsers is not defined"
  const ImageSearchFailed := "image search failed"

  /** What the handler learns from outside: the platform, the chat model, the browser, the clock. */
  datatype World = World(
    botId: string,                      // client.user.id
    history: seq<ChatMessage>,          // channel.messages.fetch({ limit: 10 }), newest first
    chatReply: Option<string>,          // the chat completion's text; None when the call failed
    imagePage: Option<seq<string>>,     // the image sources on the results page; None when the browser failed
    randomIndex: nat,                   // Math.floor(Math.random() * 10)
    members: seq<Mute.Member>,          // guild.members.cache
    mutedUsers: map<Mute.UserId, int>,  // user id -> time the user muted
    now: int)                           // Date.now()

  // ---------------------------------------------------------------------------
  // check_muted (index.js:119-137)

  /** What the `check_muted` branch finds before it looks at the muted map. */
  datatype MutedQuery =
    | NotCommand                         // the content does not start with `check_muted`
    | MissingName                        // no second token, or an empty one
    | UnknownUser(name: string)
    | KnownUser(name: string, id: Mute.UserId)

  function ParseCheckMuted(content: string, members: seq<Mute.Member>): (q: MutedQuery)
    ensures q.NotCommand? <==> !StartsWith(content, "check_muted")
    ensures q.UnknownUser? ==> |Split(content, ' ')| >= 2 && q.name == Split(content, ' ')[1] && Mute.FindMember(members, q.name).None?
    ensures q.MissingName? <==> StartsWith(content, "check_muted") && (|Split(content, ' ')| < 2 || Split(content, ' ')[1] == "")
    ensures q.KnownUser? ==> |Split(content, ' ')| >= 2 && q.name == Split(content, ' ')[1]
                             && Mute.FindMember(members, q.name) == Some(Mute.Member(q.name, q.id))
    ensures q.KnownUser? ==> exists k :: 0 <= k < |members| && members[k] == Mute.Member(q.name, q.id)
  {
    if !StartsWith(content, "check_muted") then NotCommand
    else
      var args := Split(content, ' ');
      if |args| < 2 || args[1] == "" then MissingName
      else
        match Mute.FindMember(members, args[1])
        case None => UnknownUser(args[1])
        case Some(member) =>
          Mute.FindMemberFirst(members, args[1]);
          KnownUser(args[1], member.id)
  }

  /** Only the second space-separated token is read: the name, whatever follows it. */
  lemma {:induction false} CheckMutedReadsSecondToken(name: string, rest: string, members: seq<Mute.Member>)
    requires name != "" && ' ' !in name
    ensures ParseCheckMuted("check_muted " + name + " " + rest, members)
         == ParseCheckMuted("check_muted " + name, members)
    ensures ParseCheckMuted("check_muted " + name, members)
         == (match Mute.FindMember(members, name)
             case None => UnknownUser(name)
             case Some(member) => KnownUser(name, member.id))
  {
    var long := "check_muted " + name + " " + rest;
    var short := "check_muted " + name;
    assert long == "check_muted" + [' '] + (name + [' '] + rest);
    assert short == "check_muted" + [' '] + name;
    assert ' ' !in "check_muted";
    SplitAfterPiece("check_muted", ' ', name + [' '] + rest);
    SplitAfterPiece(name, ' ', rest);
    SplitAfterPiece("check_muted", ' ', name);
    SplitWithoutSeparator(name, ' ');
    assert long[..11] == "check_muted" && short[..11] == "check_muted";
  }

  /** Without a space after the command there is no name, so the usage line is sent. */
  lemma CheckMutedWithoutName(content: string, members: seq<Mute.Member>)
    requires StartsWith(content, "check_muted") && ' ' !in content
    ensures ParseCheckMuted(content, members) == MissingName
  {
    SplitWithoutSeparator(content, ' ');
  }

  function MutedSecondsReply(name: string, seconds: int): string
  {
    name + " has been muted for " + IntToString(seconds) + " seconds."
  }

  /**
   * The `check_muted` reply with the muted-since map in scope: the usage
   * line, the unknown-user line, or the whole seconds muted so far
   * (`Math.floor`) exactly when the member is in the map.
   */
  function CheckMutedReply(q: MutedQuery, mutedUsers: map<Mute.UserId, int>, now: int): (effects: seq<Effect>)
    ensures q.NotCommand? <==> effects == []
    ensures !q.NotCommand? ==> |effects| == 1 && effects[0].Send?
    ensures q.MissingName? ==> effects == [Send(CheckMutedUsage)]
    ensures q.UnknownUser? ==> effects == [Send("User " + q.name + " not found.")]
    ensures q.KnownUser? && q.id in mutedUsers ==>
              effects == [Send(MutedSecondsReply(q.name, (now - mutedUsers[q.id]) / 1000))]
    ensures q.KnownUser? ==> (effects == [Send(Mute.NotMutedReply(q.name))] <==> q.id !in mutedUsers)
  {
    match q
    case NotCommand => []
    case MissingName => [Send(CheckMutedUsage)]
    case UnknownUser(name) => [Send("User " + name + " not found.")]
    case KnownUser(name, id) =>
      if id in mutedUsers then
        var seconds := (now - mutedUsers[id]) / 1000;
        assert MutedSecondsReply(name, seconds)[|name| + 1] != Mute.NotMutedReply(name)[|name| + 1];
        [Send(MutedSecondsReply(name, seconds))]
      else [Send(Mute.NotMutedReply(name))]
  }

  /**
   * The branch as written: `mutedUsers` is not declared in index.js, so once a
   * member is found the lookup throws instead of replying.
   */
  function CheckMutedAsWritten(q: MutedQuery): (effects: seq<Effect>)
    ensures q.KnownUser? ==> effects == [Fault(MutedUsersUndeclared)]
    ensures !q.KnownUser? ==> forall m: map<Mute.UserId, int>, now: int :: effects == CheckMutedReply(q, m, now)
  {
    match q
    case NotCommand => []
    case MissingName => [Send(CheckMutedUsage)]
    case UnknownUser(name) => [Send("User " + name + " not found.")]
    case KnownUser(_, _) => [Fault(MutedUsersUndeclared)]
  }

  /** For any existing member's name the branch as written throws and sends nothing. */
  lemma CheckMutedAsWrittenThrows(name: string, members: seq<Mute.Member>, mutedUsers: map<Mute.UserId, int>, now: int)
    requires name != "" && ' ' !in name
    requires Mute.FindMember(members, name).Some?
    ensures CheckMutedAsWritten(ParseCheckMuted("check_muted " + name, members)) == [Fault(MutedUsersUndeclared)]
    ensures CheckMutedReply(ParseCheckMuted("check_muted " + name, members), mutedUsers, now)[0].Send?
  {
    CheckMutedReadsSecondToken(name, "", members);
  }

  // ---------------------------------------------------------------------------
  // The handler

  /** The `messageCreate` handler (index.js:49-141), with the `check_muted` map supplied. */
  method OnMessageCreate(msg: ChatMessage, w: World) returns (effects: seq<Effect>)
    requires w.randomIndex < 10
    ensures msg.author.bot ==> effects == []
    // image path: no chat model, two sends, and the typing interval stays on when the search fails
    ensures !msg.author.bot && Wakes(msg.content) && AsksForImage(msg.content) ==>
      && (w.imagePage.Some? ==>
            effects == [StartTyping, Send(ImageAck), SearchImages(ImageScraper.SearchUrl(msg.content)),
                        Send(ImageScraper.SelectImage(w.imagePage.value, w.randomIndex)), StopTyping])
      && (w.imagePage.None? ==> effects == [StartTyping, Send(ImageAck), Fault(ImageSearchFailed)])
    // chat path: typing stops before the answer is sent
    ensures !msg.author.bot && Wakes(msg.content) && !AsksForImage(msg.content) ==>
      && |effects| >= 4
      && effects[0] == StartTyping && effects[2] == StopTyping
      && effects[1].AskChatModel? && IsConversation(effects[1].conversation, w.history, w.botId)
      && (w.chatReply.None? ==> effects[3..] == [Send(NapReply)])
      && (w.chatReply.Some? && |w.chatReply.value| > LongReply ==>
            effects[3..] == Sends(GreedyChunks(Split(w.chatReply.value, ' '), "")))
      && (w.chatReply.Some? && |w.chatReply.value| <= LongReply ==>
            effects[3..] == [Send(w.chatReply.value)]
                            + CheckMutedReply(ParseCheckMuted(msg.content, w.members), w.mutedUsers, w.now))
    // no wake word: only the `check_muted` branch can answer
    ensures !msg.author.bot && !Wakes(msg.content) ==>
      effects == CheckMutedReply(ParseCheckMuted(msg.content, w.members), w.mutedUsers, w.now)
  {
    if msg.author.bot {
      return [];
    }
    effects := [];
    if Wakes(msg.content) {
      if AsksForImage(msg.content) {
        // the empty-query guard at index.js:62 never fires: a waking message is not empty
        WakesNonEmpty(msg.content);
        match w.imagePage {
          case None =>
            return [StartTyping, Send(ImageAck), Fault(ImageSearchFailed)];
          case Some(page) =>
            var url := ImageScraper.SelectImage(page, w.randomIndex);
            return [StartTyping, Send(ImageAck), SearchImages(ImageScraper.SearchUrl(msg.content)), Send(url), StopTyping];
        }
      }
      var conversation := BuildConversation(w.history, w.botId);
      var typed := [StartTyping, AskChatModel(conversation), StopTyping];
      match w.chatReply {
        case None =>
          assert (typed + [Send(NapReply)])[3..] == [Send(NapReply)];
          return typed + [Send(NapReply)];
        case Some(text) =>
          if |text| > LongReply {
            var chunks := ChunkLongReply(text);
            assert (typed + Sends(chunks))[3..] == Sends(chunks);
            return typed + Sends(chunks);
          }
          effects := typed + [Send(text)];
      }
    }
    var q := ParseCheckMuted(msg.content, w.members);
    var reply := CheckMutedReply(q, w.mutedUsers, w.now);
    assert Wakes(msg.content) ==> (effects + reply)[3..] == effects[3..] + reply;
    effects := effects + reply;
  }
}
