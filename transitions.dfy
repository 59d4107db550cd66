/** Every transition of the chat screen as a function from the state before to
    the state after, with what the outside world supplies (network outcomes,
    reader chunks, parse results, timestamps) as arguments. */
module Transitions {
  import opened Wrappers
  import opened JsString
  import opened ChatState
  import opened StreamFrames

  /** How the streaming request turns out. `Refused`: `fetch` rejected or the
      status was not ok. `Opened(chunks, readFails)`: the reader yields `chunks`
      (each already decoded to text) and then either reports the end of the body
      or, when `readFails`, a read rejects. */
  datatype StreamReply = Refused | Opened(chunks: seq<string>, readFails: bool)

  /** What the world supplies to one send: the two `Date.now()` values of the
      streaming path (placeholder id, then the id the error path looks for),
      the streaming reply, the payload parser, and the buffered reply's answer
      (`None` when that request fails). */
  datatype Env = Env(aiMsgId: int, errorMsgId: int, stream: StreamReply, parse: string -> Frame, answer: Option<string>)

  /** The request a send issues: chat id, query text and the regenerate flag. */
  datatype Request = Request(chatId: string, query: string, regenerate: bool)

  /** `chatId` is truthy: set and not the empty string. */
  predicate HasChat(chatId: Option<string>)
    ensures HasChat(chatId) ==> chatId.Some? && |chatId.value| > 0
  {
    chatId.Some? && chatId.value != ""
  }

  /** The guard of both transports: `!input.trim() || !chatId || loading` is false. */
  predicate CanSend(s: Session, input: string)
    ensures CanSend(s, input) ==> input != [] && s.chatId.Some? && !s.loading
  {
    !IsBlank(input) && HasChat(s.chatId) && !s.loading
  }

  /** The request a send issues, if its guard lets it through. */
  function RequestFor(s: Session, input: string, isRegenerate: bool): (r: Option<Request>)
    ensures r.Some? <==> CanSend(s, input)
    ensures r.Some? ==> r.value.query == input && r.value.regenerate == isRegenerate && Some(r.value.chatId) == s.chatId
  {
    if CanSend(s, input) then Some(Request(s.chatId.value, input, isRegenerate)) else None
  }

  /** The first rewrite of a send: append the user's entry, or on regenerate drop the last entry. */
  function BeginSend(msgs: seq<Message>, input: string, isRegenerate: bool): (r: seq<Message>)
    ensures isRegenerate ==> r <= msgs && |r| >= |msgs| - 1
    ensures !isRegenerate ==> msgs < r && |r| == |msgs| + 1
  {
    if isRegenerate then DropLast(msgs) else msgs + [UserMessage(input)]
  }

  /** The state once a streaming send has passed its guard: the first rewrite done,
      the flag set and the placeholder appended. */
  function WithPlaceholder(s: Session, input: string, isRegenerate: bool, aiMsgId: int): (r: Session)
    ensures r.loading && r.chatId == s.chatId
    ensures |r.messages| == |BeginSend(s.messages, input, isRegenerate)| + 1
  {
    s.(messages := BeginSend(s.messages, input, isRegenerate) + [Placeholder(aiMsgId)], loading := true)
  }

  /** The catch block of the streaming send: clear the flag and show the fallback
      in an empty entry carrying `errorMsgId`. */
  function Abort(st: Session, errorMsgId: int): (r: Session)
    ensures !r.loading && r.chatId == st.chatId && |r.messages| == |st.messages|
  {
    st.(loading := false, messages := ApplyFallback(st.messages, errorMsgId))
  }

  /** `sendMessageStreaming`. */
  function StreamingSend(s: Session, input: string, isRegenerate: bool, env: Env): (r: Session)
    ensures r.chatId == s.chatId
    ensures !CanSend(s, input) ==> r == s
    ensures CanSend(s, input) ==> !r.loading && |r.messages| == |BeginSend(s.messages, input, isRegenerate)| + 1
  {
    if !CanSend(s, input) then s
    else ConsumeReply(WithPlaceholder(s, input, isRegenerate, env.aiMsgId), env)
  }

  /** The `try` block of the streaming send from the placeholder on: the reader
      loop over the chunks, then the end of the body or the catch block. */
  function ConsumeReply(started: Session, env: Env): (r: Session)
    ensures !r.loading && r.chatId == started.chatId && |r.messages| == |started.messages|
  {
    match env.stream
    case Refused => Abort(started, env.errorMsgId)
    case Opened(chunks, readFails) =>
      var st := FoldChunks(started, chunks, env.aiMsgId, env.parse);
      if readFails then Abort(st, env.errorMsgId) else st.(loading := false)
  }

  /** `sendMessageNonStreaming`. */
  function BufferedSend(s: Session, input: string, isRegenerate: bool, answer: Option<string>): (r: Session)
    ensures r.chatId == s.chatId
    ensures !CanSend(s, input) ==> r == s
    ensures CanSend(s, input) ==> !r.loading && |r.messages| == |BeginSend(s.messages, input, isRegenerate)| + 1
  {
    if !CanSend(s, input) then s
    else
      s.(messages := BeginSend(s.messages, input, isRegenerate) + [AssistantMessage(answer.GetOr(Fallback))],
         loading := false)
  }

  /** `sendMessage`: the transport the `useStreaming` switch selects. */
  function Send(s: Session, useStreaming: bool, input: string, isRegenerate: bool, env: Env): (r: Session)
    ensures r.chatId == s.chatId
    ensures !CanSend(s, input) ==> r == s
    ensures CanSend(s, input) ==> !r.loading && |r.messages| == |BeginSend(s.messages, input, isRegenerate)| + 1
  {
    if useStreaming then StreamingSend(s, input, isRegenerate, env) else BufferedSend(s, input, isRegenerate, env.answer)
  }

  /** The text `handleRegenerate` re-sends: that of the last user entry, provided
      the transcript holds at least two entries and some user entry. */
  function RegenerateText(msgs: seq<Message>): (r: Option<string>)
    ensures r.Some? <==> |msgs| >= 2 && exists j | 0 <= j < |msgs| :: msgs[j].IsUser()
    ensures r.Some? ==> exists j | 0 <= j < |msgs| :: && msgs[j].IsUser() && msgs[j].text == r.value
                                                    && forall k | j < k < |msgs| :: !msgs[k].IsUser()
  {
    if |msgs| < 2 then None
    else
      match LastUser(msgs)
      case None => None
      case Some(j) => Some(msgs[j].text)
  }

  /** `handleRegenerate`. */
  function Regenerate(s: Session, useStreaming: bool, env: Env): (r: Session)
    ensures r.chatId == s.chatId
    ensures RegenerateText(s.messages).None? ==> r == s
    ensures RegenerateText(s.messages).Some? && CanSend(s, RegenerateText(s.messages).value) ==>
              !r.loading && |r.messages| == |s.messages|
  {
    match RegenerateText(s.messages)
    case None => s
    case Some(text) => Send(s, useStreaming, text, true, env)
  }

  /** The request `handleRegenerate` issues, if any. */
  function RegenerateRequest(s: Session): (r: Option<Request>)
    ensures r.Some? ==> r.value.regenerate && Some(r.value.chatId) == s.chatId
    ensures r.Some? <==> RegenerateText(s.messages).Some? && CanSend(s, RegenerateText(s.messages).value)
    ensures r.Some? ==> r.value.query == RegenerateText(s.messages).value
  {
    match RegenerateText(s.messages)
    case None => None
    case Some(text) => RequestFor(s, text, true)
  }

  /** `startNewChat`: `reply` is the new chat id, `None` when the request fails. */
  function StartNewChat(s: Session, reply: Option<string>): (r: Session)
    ensures r.loading == s.loading
    ensures r == s || (r.chatId == reply && r.messages == [])
  {
    match reply
    case None => s
    case Some(id) => s.(chatId := Some(id), messages := [])
  }

  /** `loadChat`: the chat id is switched before the history is fetched; `reply`
      is the stored history, `None` when the request fails. */
  function LoadChat(s: Session, id: string, reply: Option<seq<StoredMessage>>): (r: Session)
    ensures r.chatId == Some(id) && r.loading == s.loading
  {
    var switched := s.(chatId := Some(id));
    match reply
    case None => switched
    case Some(stored) => switched.(messages := FormatStored(stored))
  }

  /** `handleDocumentUploaded`. */
  function DocumentUploaded(s: Session, doc: Document): (r: Session)
    ensures s.messages < r.messages && r.chatId == s.chatId && r.loading == s.loading
  {
    s.(messages := s.messages + [Attachment(doc)])
  }

  // ---------------------------------------------------------------------------
  // Properties of the transitions

  /** A send whose guard fails changes nothing and issues no request, on either transport. */
  lemma SendBlockedByGuard(s: Session, useStreaming: bool, input: string, isRegenerate: bool, env: Env)
    requires !CanSend(s, input)
    ensures Send(s, useStreaming, input, isRegenerate, env) == s
    ensures RequestFor(s, input, isRegenerate) == None
  {
  }

  /** An input made only of white space never gets through the guard. */
  lemma WhiteSpaceInputIsIgnored(s: Session, useStreaming: bool, input: string, isRegenerate: bool, env: Env)
    requires AllTrimmable(input)
    ensures Send(s, useStreaming, input, isRegenerate, env) == s
  {
    BlankIffAllTrimmable(input);
  }

  /** A plain send appends exactly one user entry holding the input, at the end; a
      regenerate send removes exactly the last entry, whatever its role, and adds nothing. */
  lemma BeginSendEffect(msgs: seq<Message>, input: string, isRegenerate: bool)
    ensures !isRegenerate ==> && |BeginSend(msgs, input, isRegenerate)| == |msgs| + 1
                              && BeginSend(msgs, input, isRegenerate)[..|msgs|] == msgs
                              && BeginSend(msgs, input, isRegenerate)[|msgs|] == Chat(None, "user", input)
    ensures isRegenerate && msgs != [] ==> BeginSend(msgs, input, isRegenerate) == msgs[..|msgs| - 1]
    ensures isRegenerate && msgs == [] ==> BeginSend(msgs, input, isRegenerate) == []
  {
    if !isRegenerate {
      assert (msgs + [UserMessage(input)])[..|msgs|] == msgs;
    }
  }

  /** A streaming send that passes its guard sets the flag and appends one empty
      assistant entry carrying the fresh id, after the first rewrite. */
  lemma PlaceholderAppended(s: Session, input: string, isRegenerate: bool, aiMsgId: int)
    ensures var o := WithPlaceholder(s, input, isRegenerate, aiMsgId);
      && o.loading && o.chatId == s.chatId
      && |o.messages| == |BeginSend(s.messages, input, isRegenerate)| + 1
      && o.messages[..|o.messages| - 1] == BeginSend(s.messages, input, isRegenerate)
      && o.messages[|o.messages| - 1] == Chat(Some(aiMsgId), "assistant", "")
  {
    var o := WithPlaceholder(s, input, isRegenerate, aiMsgId);
    assert o.messages[..|o.messages| - 1] == BeginSend(s.messages, input, isRegenerate);
  }

  /** The text a streamed reply has put into its placeholder: the tokens of every
      chunk, each split on its own, in order; none if the request was refused. */
  function StreamedText(reply: StreamReply, parse: string -> Frame): (text: string) {
    match reply
    case Refused => ""
    case Opened(chunks, _) => ChunksTokens(chunks, parse)
  }

  /** The reply ended in the catch block: refused, or a read rejected. */
  predicate Failed(reply: StreamReply) {
    reply.Refused? || reply.readFails
  }

  /** A streaming send that passes its guard always ends with the flag cleared,
      keeps the chat id, and leaves one more entry than its first rewrite: the
      placeholder, holding the streamed tokens, unless the catch block ran with
      an error id equal to the placeholder's and no token had arrived, in which
      case it holds the fallback. Entries before it that carry neither id are
      untouched; when the stream ends normally, the earlier entries carrying the
      placeholder id receive the same tokens. */
  lemma StreamingSendEffect(s: Session, input: string, isRegenerate: bool, env: Env)
    requires CanSend(s, input)
    ensures var r := StreamingSend(s, input, isRegenerate, env);
      var b := BeginSend(s.messages, input, isRegenerate);
      var t := StreamedText(env.stream, env.parse);
      && !r.loading && r.chatId == s.chatId
      && |r.messages| == |b| + 1
      && r.messages[|b|] == Chat(Some(env.aiMsgId), "assistant",
           if Failed(env.stream) && env.errorMsgId == env.aiMsgId && t == "" then Fallback else t)
      && (forall k | 0 <= k < |b| && !b[k].HasId(env.aiMsgId) && !b[k].HasId(env.errorMsgId) :: r.messages[k] == b[k])
      && (!Failed(env.stream) ==> forall k | 0 <= k < |b| :: r.messages[k] == Extend(b[k], env.aiMsgId, t))
  {
    var b := BeginSend(s.messages, input, isRegenerate);
    var t := StreamedText(env.stream, env.parse);
    var grown := AppendToken(b + [Placeholder(env.aiMsgId)], env.aiMsgId, t);
    var r := StreamingSend(s, input, isRegenerate, env);
    StreamingSendMessages(s, input, isRegenerate, env);
    PlaceholderGrows(b, env.aiMsgId, t);
    if Failed(env.stream) {
      assert r.messages == ApplyFallback(grown, env.errorMsgId);
      ApplyFallbackTouchesOnlyEmptyKey(grown, env.errorMsgId);
    } else {
      assert r.messages == grown;
    }
  }

  /** Appending the streamed text to a transcript ending in the placeholder fills
      the placeholder with exactly that text and extends the earlier entries carrying its id. */
  lemma PlaceholderGrows(b: seq<Message>, key: int, t: string)
    ensures var grown := AppendToken(b + [Placeholder(key)], key, t);
      && |grown| == |b| + 1
      && grown[|b|] == Chat(Some(key), "assistant", t)
      && forall k | 0 <= k < |b| :: grown[k] == Extend(b[k], key, t)
  {
    assert "" + t == t;
  }

  /** The transcript a streaming send leaves, in closed form: the placeholder
      appended after the first rewrite, the streamed text appended to every entry
      carrying its id, and the fallback rewrite on the error path. */
  lemma StreamingSendMessages(s: Session, input: string, isRegenerate: bool, env: Env)
    requires CanSend(s, input)
    ensures var r := StreamingSend(s, input, isRegenerate, env);
      var grown := AppendToken(BeginSend(s.messages, input, isRegenerate) + [Placeholder(env.aiMsgId)],
                               env.aiMsgId, StreamedText(env.stream, env.parse));
      && !r.loading && r.chatId == s.chatId
      && r.messages == if Failed(env.stream) then ApplyFallback(grown, env.errorMsgId) else grown
  {
    var started := WithPlaceholder(s, input, isRegenerate, env.aiMsgId);
    match env.stream {
      case Refused =>
        AppendEmptyToken(started.messages, env.aiMsgId);
      case Opened(chunks, readFails) =>
        FoldChunksEffect(started, chunks, env.aiMsgId, env.parse);
    }
  }

  /** The error path shows the fallback only when the second timestamp equals the
      placeholder's id: with any other error id the placeholder keeps exactly the
      tokens that had arrived (empty if the request was refused). */
  lemma FallbackShownOnlyForMatchingId(s: Session, input: string, isRegenerate: bool, env: Env)
    requires CanSend(s, input) && Failed(env.stream)
    ensures var r := StreamingSend(s, input, isRegenerate, env);
      var b := BeginSend(s.messages, input, isRegenerate);
      && |r.messages| == |b| + 1
      && (r.messages[|b|] == Chat(Some(env.aiMsgId), "assistant", Fallback) <==>
            (env.errorMsgId == env.aiMsgId && StreamedText(env.stream, env.parse) == "")
            || StreamedText(env.stream, env.parse) == Fallback)
  {
    StreamingSendEffect(s, input, isRegenerate, env);
  }

  /** A buffered send that passes its guard appends exactly one assistant entry
      after its first rewrite, holding the answer or, if the request failed, the
      fallback; it ends with the flag cleared. */
  lemma BufferedSendEffect(s: Session, input: string, isRegenerate: bool, answer: Option<string>)
    requires CanSend(s, input)
    ensures var r := BufferedSend(s, input, isRegenerate, answer);
      && !r.loading && r.chatId == s.chatId
      && r.messages == BeginSend(s.messages, input, isRegenerate) + [Chat(None, "assistant", answer.GetOr(Fallback))]
      && (answer.None? ==> r.messages[|r.messages| - 1].text == Fallback)
  {
  }

  /** No send that gets through its guard leaves the flag set. */
  lemma SendClearsFlag(s: Session, useStreaming: bool, input: string, isRegenerate: bool, env: Env)
    requires CanSend(s, input)
    ensures !Send(s, useStreaming, input, isRegenerate, env).loading
  {
    if useStreaming {
      StreamingSendEffect(s, input, isRegenerate, env);
    }
  }

  /** `handleRegenerate` changes nothing when the transcript has fewer than two
      entries or no user entry; otherwise it is a regenerate send of the text of
      the last user entry. */
  lemma RegenerateEffect(s: Session, useStreaming: bool, env: Env)
    ensures |s.messages| < 2 ==> Regenerate(s, useStreaming, env) == s
    ensures (forall j | 0 <= j < |s.messages| :: !s.messages[j].IsUser()) ==> Regenerate(s, useStreaming, env) == s
    ensures |s.messages| >= 2 && LastUser(s.messages).Some? ==>
      Regenerate(s, useStreaming, env) == Send(s, useStreaming, s.messages[LastUser(s.messages).value].text, true, env)
  {
  }

  /** `r` is `s` with its last entry replaced by the assistant reply of the
      transport in use: the same length, `loading` clear, every earlier entry
      carrying neither timestamp id kept (every earlier entry at all on the
      buffered transport, which reads no id), and as last entry the streamed text (or
      the fallback when the error id matches and nothing arrived) under the
      placeholder id, or the buffered answer (or the fallback) without an id. */
  predicate ReplacesLast(s: Session, r: Session, useStreaming: bool, env: Env) {
    && |s.messages| >= 1
    && |r.messages| == |s.messages|
    && !r.loading
    && (!useStreaming ==> r.messages[..|s.messages| - 1] == s.messages[..|s.messages| - 1])
    && (forall k | 0 <= k < |s.messages| - 1 && !s.messages[k].HasId(env.aiMsgId) && !s.messages[k].HasId(env.errorMsgId) ::
          r.messages[k] == s.messages[k])
    && r.messages[|s.messages| - 1] ==
         if useStreaming then
           var t := StreamedText(env.stream, env.parse);
           Chat(Some(env.aiMsgId), "assistant",
                if Failed(env.stream) && env.errorMsgId == env.aiMsgId && t == "" then Fallback else t)
         else Chat(None, "assistant", env.answer.GetOr(Fallback))
  }

  /** A regenerate send that passes its guard replaces the last entry with the reply. */
  lemma RegenerateSendReplacesLast(s: Session, useStreaming: bool, text: string, env: Env)
    requires |s.messages| >= 1 && CanSend(s, text)
    ensures ReplacesLast(s, Send(s, useStreaming, text, true, env), useStreaming, env)
  {
    assert BeginSend(s.messages, text, true) == s.messages[..|s.messages| - 1];
    if useStreaming {
      StreamingSendEffect(s, text, true, env);
    } else {
      BufferedSendEffect(s, text, true, env.answer);
    }
  }

  /** A regenerate that goes through replaces the last entry, whatever its role,
      with the new reply: the transcript keeps its length and its other entries
      (those carrying neither timestamp id), and its last entry is the assistant
      reply of the transport in use. */
  lemma RegenerateReplacesLast(s: Session, useStreaming: bool, env: Env)
    requires RegenerateText(s.messages).Some? && CanSend(s, RegenerateText(s.messages).value)
    ensures ReplacesLast(s, Regenerate(s, useStreaming, env), useStreaming, env)
  {
    var text := RegenerateText(s.messages).value;
    RegenerateSendReplacesLast(s, useStreaming, text, env);
  }

  /** `startNewChat` switches to the new chat with an empty transcript on success
      and changes nothing on failure. */
  lemma StartNewChatEffect(s: Session, reply: Option<string>)
    ensures reply.Some? ==> StartNewChat(s, reply) == Session(reply, [], s.loading)
    ensures reply.None? ==> StartNewChat(s, reply) == s
  {
  }

  /** `loadChat` always switches the chat id; the transcript becomes the stored
      history on success and is kept on failure. */
  lemma LoadChatEffect(s: Session, id: string, reply: Option<seq<StoredMessage>>)
    ensures LoadChat(s, id, reply).chatId == Some(id) && LoadChat(s, id, reply).loading == s.loading
    ensures reply.None? ==> LoadChat(s, id, reply).messages == s.messages
    ensures reply.Some? ==> |LoadChat(s, id, reply).messages| == |reply.value|
    ensures reply.Some? ==> forall k | 0 <= k < |reply.value| ::
      LoadChat(s, id, reply).messages[k] == Chat(None, reply.value[k].role, reply.value[k].message)
  {
  }

  /** An upload appends one document entry and leaves every existing entry, the chat id and the flag as they were. */
  lemma DocumentUploadedAppendsOnly(s: Session, doc: Document)
    ensures var r := DocumentUploaded(s, doc);
      && |r.messages| == |s.messages| + 1
      && r.messages[..|s.messages|] == s.messages
      && r.messages[|s.messages|] == Attachment(doc)
      && r.messages[|s.messages|].Role() == "document"
      && r.chatId == s.chatId && r.loading == s.loading
  {
    assert (s.messages + [Attachment(doc)])[..|s.messages|] == s.messages;
  }
}
