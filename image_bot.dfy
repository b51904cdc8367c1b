/**
 * src/index.js: the variant `messageCreate` handler. A waking message that
 * also says `generate image` goes to the image-generation model and returns;
 * any other waking message goes to the chat model and is answered with
 * replies; nothing else gets an answer.
 */
module ImageBot {
  import opened Text
  import opened Conversation

  const ImageReplyPrefix := "Here you go!\n"
  const NapReply := "I'm taking a nap, the noggin's foggy... Ask again later..."
  const ResponseUndefined := "TypeError: Cannot read properties of undefined (reading 'data')"

  /** What the handler learns from outside: the platform and the two models. */
  datatype World = World(
    botId: string,                  // client.user.id
    history: seq<ChatMessage>,      // channel.messages.fetch({ limit: 10 }), newest first
    imageUrl: Option<string>,       // the generated image's URL; None when the call failed
    chatReply: Option<string>)      // the chat completion's text; None when the call failed

  predicate AsksToGenerate(content: string)
  {
    Wakes(content) && Contains(content, "generate image")
  }

  /** The `messageCreate` handler (src/index.js:24-91). */
  method OnMessageCreate(msg: ChatMessage, w: World) returns (effects: seq<Effect>)
    ensures msg.author.bot ==> effects == []
    // image generation: the whole message is the prompt; a failed call throws before any reply
    ensures !msg.author.bot && AsksToGenerate(msg.content) ==>
      && (w.imageUrl.Some? ==> effects == [AskImageModel(msg.content), Reply(ImageReplyPrefix + w.imageUrl.value)])
      && (w.imageUrl.None? ==> effects == [AskImageModel(msg.content), Fault(ResponseUndefined)])
    // chat path
    ensures !msg.author.bot && Wakes(msg.content) && !AsksToGenerate(msg.content) ==>
      && |effects| >= 4
      && effects[0] == StartTyping && effects[2] == StopTyping
      && effects[1].AskChatModel? && IsConversation(effects[1].conversation, w.history, w.botId)
      && (w.chatReply.None? ==> effects[3..] == [Reply(NapReply)])
      && (w.chatReply.Some? && |w.chatReply.value| > LongReply ==>
            effects[3..] == Replies(GreedyChunks(Split(w.chatReply.value, ' '), "")))
      && (w.chatReply.Some? && |w.chatReply.value| <= LongReply ==> effects[3..] == [Reply(w.chatReply.value)])
    ensures !msg.author.bot && !Wakes(msg.content) ==> effects == []
    // whenever typing was started, it was stopped before the first reply
    ensures forall k :: 0 <= k < |effects| && effects[k].Reply? && StartTyping in effects ==> StopTyping in effects[..k]
    ensures forall k :: 0 <= k < |effects| ==> !effects[k].Send?
  {
    if msg.author.bot {
      return [];
    }
    if AsksToGenerate(msg.content) {
      match w.imageUrl {
        case None =>
          return [AskImageModel(msg.content), Fault(ResponseUndefined)];
        case Some(url) =>
          return [AskImageModel(msg.content), Reply(ImageReplyPrefix + url)];
      }
    }
    if !Wakes(msg.content) {
      return [];
    }
    var conversation := BuildConversation(w.history, w.botId);
    effects := [StartTyping, AskChatModel(conversation), StopTyping];
    assert effects[..3][2] == StopTyping;
    match w.chatReply {
      case None =>
        effects := effects + [Reply(NapReply)];
      case Some(text) =>
        if |text| > LongReply {
          var chunks := ChunkLongReply(text);
          effects := effects + Replies(chunks);
        } else {
          effects := effects + [Reply(text)];
        }
    }
    assert forall k :: 3 <= k < |effects| ==> effects[..k][2] == StopTyping;
  }
}
