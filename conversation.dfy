/**
 * The pieces both `messageCreate` handlers (index.js and src/index.js) share:
 * the wake test, the effects a handler performs, username sanitising, the
 * conversation sent to the chat model, and the word-chunking of long replies.
 */
module Conversation {
  import opened Text

  datatype Author = Author(id: string, username: string, bot: bool)
  datatype ChatMessage = ChatMessage(author: Author, content: string)

  datatype Role = System | Assistant | User

  /** One element of the `conversation` array passed to the chat model. */
  datatype Entry = Entry(role: Role, name: Option<string>, content: string)

  const SystemPrompt := "Chat GPT is a friendly chatbot named Cortex"

  /** What a message handler does, in order. */
  datatype Effect =
    | StartTyping                        // sendTyping() and the 5-second typing interval
    | StopTyping                         // clearInterval of that interval
    | AskChatModel(conversation: seq<Entry>)
    | AskImageModel(prompt: string)
    | SearchImages(url: string)          // the image-search results page the browser opens
    | Send(text: string)                 // message.channel.send
    | Reply(text: string)                // message.reply
    | Fault(error: string)               // an exception escapes the handler

  /** One `message.channel.send` per text, in order. */
  function Sends(texts: seq<string>): (effects: seq<Effect>)
    ensures |effects| == |texts|
    ensures forall k :: 0 <= k < |texts| ==> effects[k] == Send(texts[k])
    decreases |texts|
  {
    if texts == [] then [] else [Send(texts[0])] + Sends(texts[1..])
  }

  /** One `message.reply` per text, in order. */
  function Replies(texts: seq<string>): (effects: seq<Effect>)
    ensures |effects| == |texts|
    ensures forall k :: 0 <= k < |texts| ==> effects[k] == Reply(texts[k])
    decreases |texts|
  {
    if texts == [] then [] else [Reply(texts[0])] + Replies(texts[1..])
  }

  /** The wake test: case-sensitive, so only `cortex` and `Cortex` wake the bot. */
  predicate Wakes(content: string)
  {
    Contains(content, "cortex") || Contains(content, "Cortex")
  }

  lemma UpperCaseDoesNotWake()
    ensures !Wakes("CORTEX") && Wakes("hey Cortex")
  {
    assert "CORTEX"[..6][0] != "cortex"[0];
    assert !StartsWith("CORTEX", "Cortex") by { assert "CORTEX"[..6][1] != "Cortex"[1]; }
    assert !Contains("CORTEX"[1..], "cortex") && !Contains("CORTEX"[1..], "Cortex");
    assert StartsWith("Cortex", "Cortex");
    assert "hey Cortex"[1..] == "ey Cortex" && "ey Cortex"[1..] == "y Cortex";
    assert "y Cortex"[1..] == " Cortex" && " Cortex"[1..] == "Cortex";
  }

  /** A waking message is never empty. */
  lemma WakesNonEmpty(content: string)
    requires Wakes(content)
    ensures |content| >= 6
  {
    if Contains(content, "cortex") {
      ContainsLength(content, "cortex");
    } else {
      ContainsLength(content, "Cortex");
    }
  }

  // ---------------------------------------------------------------------------
  // Username sanitising: .replace(/\s+/g, '_').replace(/[^\w\s]/gi, '')

  /** The rest of `s` after its leading white space. */
  function DropSpaces(s: string): (r: string)
    ensures |r| <= |s| && r == s[|s| - |r|..]
    ensures r == [] || !IsJsSpace(r[0])
    decreases |s|
  {
    if s != [] && IsJsSpace(s[0]) then DropSpaces(s[1..]) else s
  }

  /** `s.replace(/\s+/g, '_')`: each maximal run of white space becomes one `_`. */
  function CollapseSpaces(s: string): (r: string)
    ensures forall k :: 0 <= k < |r| ==> !IsJsSpace(r[k])
    decreases |s|
  {
    if s == [] then ""
    else if IsJsSpace(s[0]) then "_" + CollapseSpaces(DropSpaces(s[1..]))
    else [s[0]] + CollapseSpaces(s[1..])
  }

  /** `s.replace(/[^\w\s]/gi, '')`: keeps the word and white-space characters, in order. */
  function KeepWordOrSpace(s: string): (r: string)
    ensures forall k :: 0 <= k < |r| ==> (IsWordChar(r[k]) || IsJsSpace(r[k])) && r[k] in s
    decreases |s|
  {
    if s == [] then ""
    else (if IsWordChar(s[0]) || IsJsSpace(s[0]) then [s[0]] else "") + KeepWordOrSpace(s[1..])
  }

  /** Text made only of word characters loses nothing. */
  lemma {:induction false} KeepWordOnly(s: string)
    requires forall k :: 0 <= k < |s| ==> IsWordChar(s[k])
    ensures KeepWordOrSpace(s) == s
    decreases |s|
  {
    if s != [] {
      assert forall k :: 0 <= k < |s[1..]| ==> s[1..][k] == s[k + 1];
      KeepWordOnly(s[1..]);
      assert [s[0]] + s[1..] == s;
    }
  }

  /** The name given to the chat model: only `[A-Za-z0-9_]` remains. */
  function SanitizeUsername(name: string): (r: string)
    ensures forall k :: 0 <= k < |r| ==> IsWordChar(r[k])
  {
    var collapsed := CollapseSpaces(name);
    var r := KeepWordOrSpace(collapsed);
    assert forall k :: 0 <= k < |r| ==> !IsJsSpace(r[k]) by {
      forall k | 0 <= k < |r| ensures !IsJsSpace(r[k]) {
        var j :| 0 <= j < |collapsed| && collapsed[j] == r[k];
      }
    }
    r
  }

  /** A name made only of word characters passes unchanged, so sanitising is idempotent. */
  lemma SanitizeIdempotent(name: string)
    ensures SanitizeUsername(SanitizeUsername(name)) == SanitizeUsername(name)
    ensures (forall k :: 0 <= k < |name| ==> IsWordChar(name[k])) ==> SanitizeUsername(name) == name
  {
    var s := SanitizeUsername(name);
    CollapseSpaceFreeUnchanged(s);
    KeepWordOnly(s);
    if forall k :: 0 <= k < |name| ==> IsWordChar(name[k]) {
      CollapseSpaceFreeUnchanged(name);
      KeepWordOnly(name);
    }
  }

  /** A run of white space between two space-free parts becomes a single `_`. */
  lemma CollapseRun(left: string, run: string, right: string)
    requires forall k :: 0 <= k < |left| ==> !IsJsSpace(left[k])
    requires forall k :: 0 <= k < |right| ==> !IsJsSpace(right[k])
    requires |run| >= 1 && forall k :: 0 <= k < |run| ==> IsJsSpace(run[k])
    ensures CollapseSpaces(left + run + right) == left + "_" + right
  {
    SpaceFreeFromAll(left);
    CollapseAfterSpaceFree(left, run + right);
    CollapseLeadingRun(run, right);
    AppendAssoc(left, run, right);
    AppendAssoc(left, "_", right);
  }

  /** No white space in `s`, stated one character at a time. */
  predicate SpaceFree(s: string)
    decreases |s|
  {
    s == [] || (!IsJsSpace(s[0]) && SpaceFree(s[1..]))
  }

  lemma {:induction false} SpaceFreeFromAll(s: string)
    requires forall k :: 0 <= k < |s| ==> !IsJsSpace(s[k])
    ensures SpaceFree(s)
    decreases |s|
  {
    if s != [] {
      assert forall k :: 0 <= k < |s[1..]| ==> s[1..][k] == s[k + 1];
      SpaceFreeFromAll(s[1..]);
    }
  }

  /** Text without white space is unchanged. */
  lemma CollapseSpaceFreeUnchanged(s: string)
    requires forall k :: 0 <= k < |s| ==> !IsJsSpace(s[k])
    ensures CollapseSpaces(s) == s
  {
    SpaceFreeFromAll(s);
    CollapseAfterSpaceFree(s, "");
    assert s + "" == s;
  }

  /** A space-free prefix passes through unchanged. */
  lemma {:induction false} CollapseAfterSpaceFree(left: string, rest: string)
    requires SpaceFree(left)
    ensures CollapseSpaces(left + rest) == left + CollapseSpaces(rest)
    decreases |left|
  {
    if left != [] {
      assert left + rest == [left[0]] + (left[1..] + rest);
      CollapseAfterSpaceFree(left[1..], rest);
      CollapseKeepsFirst(left[0], left[1..] + rest);
      assert [left[0]] + (left[1..] + CollapseSpaces(rest)) == left + CollapseSpaces(rest);
    } else {
      assert left + rest == rest;
    }
  }

  lemma CollapseLeadingRun(run: string, right: string)
    requires forall k :: 0 <= k < |right| ==> !IsJsSpace(right[k])
    requires |run| >= 1 && forall k :: 0 <= k < |run| ==> IsJsSpace(run[k])
    ensures CollapseSpaces(run + right) == "_" + right
  {
    assert (run + right)[0] == run[0];
    assert (run + right)[1..] == run[1..] + right;
    DropRun(run[1..], right);
    CollapseSpaceFreeUnchanged(right);
  }

  lemma CollapseKeepsFirst(c: char, rest: string)
    requires !IsJsSpace(c)
    ensures CollapseSpaces([c] + rest) == [c] + CollapseSpaces(rest)
  {
    assert ([c] + rest)[1..] == rest;
  }

  lemma {:induction false} DropRun(run: string, right: string)
    requires forall k :: 0 <= k < |run| ==> IsJsSpace(run[k])
    requires right == [] || !IsJsSpace(right[0])
    ensures DropSpaces(run + right) == right
    decreases |run|
  {
    if run != [] {
      assert (run + right)[1..] == run[1..] + right;
      DropRun(run[1..], right);
    } else {
      assert run + right == right;
    }
  }

  // ---------------------------------------------------------------------------
  // The conversation sent to the chat model

  /**
   * The system entry, then one entry per fetched message in chronological
   * order (the fetch returns newest first); `assistant` exactly for the bot's
   * own messages, `user` for everyone else, names sanitised.
   */
  ghost predicate IsConversation(conv: seq<Entry>, history: seq<ChatMessage>, botId: string)
  {
    && |conv| == |history| + 1
    && conv[0] == Entry(System, None, SystemPrompt)
    && forall k :: 1 <= k < |conv| ==>
         && (conv[k].role == Assistant <==> history[|history| - k].author.id == botId)
         && conv[k].role != System
         && conv[k].name == Some(SanitizeUsername(history[|history| - k].author.username))
         && conv[k].content == history[|history| - k].content
  }

  /** `prevMessages.reverse()` followed by the `forEach` that pushes one entry per message. */
  method BuildConversation(history: seq<ChatMessage>, botId: string) returns (conv: seq<Entry>)
    ensures IsConversation(conv, history, botId)
  {
    conv := [Entry(System, None, SystemPrompt)];
    var i := |history|;
    while i > 0
      invariant 0 <= i <= |history|
      invariant |conv| == |history| - i + 1
      invariant conv[0] == Entry(System, None, SystemPrompt)
      invariant forall k :: 1 <= k < |conv| ==>
         && (conv[k].role == Assistant <==> history[|history| - k].author.id == botId)
         && conv[k].role != System
         && conv[k].name == Some(SanitizeUsername(history[|history| - k].author.username))
         && conv[k].content == history[|history| - k].content
    {
      i := i - 1;
      var msg := history[i];
      var username := SanitizeUsername(msg.author.username);
      if msg.author.id == botId {
        conv := conv + [Entry(Assistant, Some(username), msg.content)];
      } else {
        conv := conv + [Entry(User, Some(username), msg.content)];
      }
    }
  }

  // ---------------------------------------------------------------------------
  // Chunking of replies longer than 2000 characters

  const LongReply := 2000
  const ChunkLimit := 1950

  /**
   * The chunks the greedy loop sends for the remaining `words`, starting with
   * the text already gathered in `pending`: each word is appended with one
   * space, and the gathered text is sent as soon as it exceeds 1950
   * characters. Whatever is left at the end is sent too, even when empty.
   */
  function GreedyChunks(words: seq<string>, pending: string): (chunks: seq<string>)
    ensures |chunks| >= 1
    decreases |words|
  {
    if words == [] then [pending]
    else
      var gathered := pending + words[0] + " ";
      if |gathered| > ChunkLimit then [gathered] + GreedyChunks(words[1..], "")
      else GreedyChunks(words[1..], gathered)
  }

  /** Every word followed by one space. */
  function Spaced(words: seq<string>): string
    decreases |words|
  {
    if words == [] then "" else words[0] + " " + Spaced(words[1..])
  }

  lemma {:induction false} GreedyChunksConcat(words: seq<string>, pending: string)
    ensures Concat(GreedyChunks(words, pending)) == pending + Spaced(words)
    decreases |words|
  {
    if words != [] {
      var gathered := pending + words[0] + " ";
      RegroupGathered(pending, words[0], Spaced(words[1..]));
      if |gathered| > ChunkLimit {
        var rest := GreedyChunks(words[1..], "");
        GreedyChunksConcat(words[1..], "");
        assert ([gathered] + rest)[1..] == rest;
        assert "" + Spaced(words[1..]) == Spaced(words[1..]);
      } else {
        GreedyChunksConcat(words[1..], gathered);
      }
    } else {
      assert Concat([pending]) == pending + Concat([]);
    }
  }

  lemma RegroupGathered(pending: string, word: string, rest: string)
    ensures pending + word + " " + rest == pending + (word + " " + rest)
  {
    AppendAssoc(pending + word, " ", rest);
    AppendAssoc(pending, word, " " + rest);
    AppendAssoc(word, " ", rest);
  }

  lemma {:induction false} SpacedJoin(words: seq<string>)
    requires |words| >= 1
    ensures Spaced(words) == Join(words, " ") + " "
    decreases |words|
  {
    if |words| > 1 {
      SpacedJoin(words[1..]);
    } else {
      assert words[1..] == [];
    }
  }

  /** The text before the final word of `s` (everything up to and including its last space). */
  function TrimWord(s: string): string
    decreases |s|
  {
    if s == [] || s[|s| - 1] == ' ' then s else TrimWord(s[..|s| - 1])
  }

  /** A chunk without its final word and the space after it. */
  function DropLastWord(chunk: string): string
    requires |chunk| >= 1
  {
    TrimWord(chunk[..|chunk| - 1])
  }

  predicate SpaceEnded(s: string)
  {
    s == [] || s[|s| - 1] == ' '
  }

  lemma {:induction false} TrimWordAfter(p: string, w: string)
    requires SpaceEnded(p)
    requires ' ' !in w
    ensures TrimWord(p + w) == p
    decreases |w|
  {
    if w != [] {
      var s := p + w;
      assert s[|s| - 1] == w[|w| - 1];
      assert w[|w| - 1] in w;
      assert s[..|s| - 1] == p + w[..|w| - 1];
      var front := w[..|w| - 1];
      forall k | 0 <= k < |front| ensures front[k] != ' ' {
        assert front[k] == w[k] && w[k] in w;
      }
      TrimWordAfter(p, front);
    } else {
      assert p + w == p;
    }
  }

  /**
   * A chunk sent from inside the loop: longer than 1950 characters, and no
   * longer than 1950 without its final word and space.
   */
  ghost predicate Flushed(chunk: string)
  {
    |chunk| > ChunkLimit && |DropLastWord(chunk)| <= ChunkLimit
  }

  lemma {:induction false} GreedyChunksFlushed(words: seq<string>, pending: string)
    requires |pending| <= ChunkLimit && SpaceEnded(pending)
    requires forall k :: 0 <= k < |words| ==> ' ' !in words[k]
    ensures var chunks := GreedyChunks(words, pending);
      && (forall k :: 0 <= k < |chunks| - 1 ==> Flushed(chunks[k]))
      && |chunks[|chunks| - 1]| <= ChunkLimit
    decreases |words|
  {
    if words != [] {
      var gathered := pending + words[0] + " ";
      assert forall k :: 0 <= k < |words[1..]| ==> ' ' !in words[1..][k] by {
        forall k | 0 <= k < |words[1..]| ensures ' ' !in words[1..][k] { assert words[1..][k] == words[k + 1]; }
      }
      if |gathered| > ChunkLimit {
        assert gathered[..|gathered| - 1] == pending + words[0];
        TrimWordAfter(pending, words[0]);
        GreedyChunksFlushed(words[1..], "");
        var rest := GreedyChunks(words[1..], "");
        assert GreedyChunks(words, pending) == [gathered] + rest;
      } else {
        GreedyChunksFlushed(words[1..], gathered);
      }
    }
  }

  /**
   * The loop at index.js:103-112 (and src/index.js:75-84): the chunks sent for a
   * reply, which concatenate to the reply plus one trailing space.
   */
  method ChunkLongReply(content: string) returns (chunks: seq<string>)
    ensures chunks == GreedyChunks(Split(content, ' '), "")
    ensures |chunks| >= 1
    ensures Concat(chunks) == content + " "
    ensures forall k :: 0 <= k < |chunks| - 1 ==> Flushed(chunks[k])
    ensures |chunks[|chunks| - 1]| <= ChunkLimit
  {
    var words := Split(content, ' ');
    var pending := "";
    chunks := [];
    var i := 0;
    while i < |words|
      invariant 0 <= i <= |words|
      invariant chunks + GreedyChunks(words[i..], pending) == GreedyChunks(words, "")
    {
      assert words[i..][0] == words[i] && words[i..][1..] == words[i + 1..];
      pending := pending + words[i] + " ";
      if |pending| > ChunkLimit {
        chunks := chunks + [pending];
        pending := "";
      }
      i := i + 1;
    }
    chunks := chunks + [pending];
    assert words[..] == words[0..];
    GreedyChunksConcat(words, "");
    SpacedJoin(words);
    JoinSplit(content, ' ');
    GreedyChunksFlushed(words, "");
  }
}
