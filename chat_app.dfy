/** The chat screen's controller: the state it holds and the handlers that change
    it step by step. Each handler is proved to leave exactly the state the
    corresponding function of `Transitions` or `StreamFrames` describes. */
module ChatApp {
  import opened Wrappers
  import opened JsString
  import opened ChatState
  import opened StreamFrames
  import opened Transitions

  class App {
    var chatId: Option<string>
    var messages: seq<Message>
    var loading: bool
    /** Which transport `SendMessage` uses. */
    var useStreaming: bool

    /** The state the transitions are specified over. */
    function State(): Session
      reads this
    {
      Session(chatId, messages, loading)
    }

    /** The screen as first rendered: no chat, no entries, nothing in flight, streaming on. */
    constructor ()
      ensures State() == Session(None, [], false) && useStreaming
    {
      chatId := None;
      messages := [];
      loading := false;
      useStreaming := true;
    }

    /** The streaming checkbox. */
    method SetUseStreaming(on: bool)
      modifies this
      ensures useStreaming == on && State() == old(State())
    {
      useStreaming := on;
    }

    method StartNewChat(reply: Option<string>)
      modifies this
      ensures State() == Transitions.StartNewChat(old(State()), reply)
      ensures useStreaming == old(useStreaming)
    {
      if reply.Some? {
        chatId := reply;
        messages := [];
      }
    }

    method LoadChat(id: string, reply: Option<seq<StoredMessage>>)
      modifies this
      ensures State() == Transitions.LoadChat(old(State()), id, reply)
      ensures useStreaming == old(useStreaming)
    {
      chatId := Some(id);
      if reply.Some? {
        messages := FormatStored(reply.value);
      }
    }

    method HandleDocumentUploaded(doc: Document)
      modifies this
      ensures State() == DocumentUploaded(old(State()), doc)
      ensures messages[..|old(messages)|] == old(messages)
      ensures useStreaming == old(useStreaming)
    {
      messages := messages + [Attachment(doc)];
    }

    /** The streaming send: guard, first rewrite, placeholder, then the reader loop;
        the catch block runs when the request is refused or a read rejects. */
    method SendMessageStreaming(input: string, isRegenerate: bool, env: Env) returns (request: Option<Request>)
      modifies this
      ensures State() == StreamingSend(old(State()), input, isRegenerate, env)
      ensures request == RequestFor(old(State()), input, isRegenerate)
      ensures request.Some? ==> !loading
      ensures useStreaming == old(useStreaming)
    {
      if !CanSend(State(), input) {
        return None;
      }
      request := Some(Request(chatId.value, input, isRegenerate));
      StartReply(input, isRegenerate, env.aiMsgId);
      ConsumeStream(env);
    }

    /** The streaming send past its guard, up to the request: the first rewrite,
        the flag set, and the empty assistant entry carrying `aiMsgId` appended. */
    method StartReply(input: string, isRegenerate: bool, aiMsgId: int)
      modifies this
      ensures State() == WithPlaceholder(old(State()), input, isRegenerate, aiMsgId)
      ensures useStreaming == old(useStreaming)
    {
      RewriteForSend(input, isRegenerate);
      loading := true;
      messages := messages + [Placeholder(aiMsgId)];
    }

    /** The first rewrite of both transports: append the user's entry, or on
        regenerate drop the last entry, whatever its role. */
    method RewriteForSend(input: string, isRegenerate: bool)
      modifies this
      ensures messages == BeginSend(old(messages), input, isRegenerate)
      ensures chatId == old(chatId) && loading == old(loading) && useStreaming == old(useStreaming)
    {
      if !isRegenerate {
        messages := messages + [UserMessage(input)];
      } else {
        messages := DropLast(messages);
      }
    }

    /** From the placeholder on: the reader loop, then the end of the body or the catch block. */
    method ConsumeStream(env: Env)
      modifies this
      ensures State() == ConsumeReply(old(State()), env)
      ensures !loading
      ensures useStreaming == old(useStreaming)
    {
      match env.stream {
        case Refused =>
          CatchStreamError(env.errorMsgId);
        case Opened(chunks, readFails) =>
          ReadChunks(chunks, env.aiMsgId, env.parse);
          if readFails {
            CatchStreamError(env.errorMsgId);
          } else {
            loading := false;
          }
      }
    }

    /** The catch block of the streaming send: clear the flag and show the fallback
        in an empty entry carrying the error timestamp. */
    method CatchStreamError(errorMsgId: int)
      modifies this
      ensures State() == Abort(old(State()), errorMsgId)
      ensures useStreaming == old(useStreaming)
    {
      loading := false;
      messages := ApplyFallback(messages, errorMsgId);
    }

    /** The reader loop: each chunk the reader yields, in order, until it reports the end. */
    method ReadChunks(chunks: seq<string>, aiMsgId: int, parse: string -> Frame)
      modifies this
      ensures State() == FoldChunks(old(State()), chunks, aiMsgId, parse)
      ensures useStreaming == old(useStreaming)
    {
      var i := 0;
      while i < |chunks|
        invariant 0 <= i <= |chunks|
        invariant State() == FoldChunks(old(State()), chunks[..i], aiMsgId, parse)
        invariant useStreaming == old(useStreaming)
      {
        HandleChunk(chunks[i], aiMsgId, parse);
        assert chunks[..i + 1][..i] == chunks[..i];
        i := i + 1;
      }
      assert chunks[..|chunks|] == chunks;
    }

    /** One chunk: split on newlines on its own, then each line acted on in turn. */
    method HandleChunk(chunk: string, aiMsgId: int, parse: string -> Frame)
      modifies this
      ensures State() == ProcessChunk(old(State()), chunk, aiMsgId, parse)
      ensures useStreaming == old(useStreaming)
    {
      var lines := Split(chunk, '\n');
      for j := 0 to |lines|
        invariant State() == FoldLines(old(State()), lines[..j], aiMsgId, parse)
        invariant useStreaming == old(useStreaming)
      {
        var line := lines[j];
        if StartsWith(line, DataPrefix) {
          match parse(line[6..]) {
            case Malformed =>
            case Payload(done, token) =>
              if done {
                loading := false;
              } else if token.Some? {
                messages := AppendToken(messages, aiMsgId, token.value);
              }
          }
        }
        assert lines[..j + 1][..j] == lines[..j];
      }
      assert lines[..|lines|] == lines;
    }

    method SendMessageNonStreaming(input: string, isRegenerate: bool, answer: Option<string>) returns (request: Option<Request>)
      modifies this
      ensures State() == BufferedSend(old(State()), input, isRegenerate, answer)
      ensures request == RequestFor(old(State()), input, isRegenerate)
      ensures request.Some? ==> !loading
      ensures useStreaming == old(useStreaming)
    {
      if !CanSend(State(), input) {
        return None;
      }
      request := Some(Request(chatId.value, input, isRegenerate));
      RewriteForSend(input, isRegenerate);
      loading := true;
      SettleBuffered(answer);
    }

    /** The buffered request settling: the answer, or on failure the fallback,
        appended as one assistant entry; then the `finally` clears the flag. */
    method SettleBuffered(answer: Option<string>)
      modifies this
      ensures messages == old(messages) + [AssistantMessage(answer.GetOr(Fallback))]
      ensures !loading && chatId == old(chatId) && useStreaming == old(useStreaming)
    {
      match answer {
        case Some(text) =>
          messages := messages + [AssistantMessage(text)];
        case None =>
          messages := messages + [AssistantMessage(Fallback)];
      }
      loading := false;
    }

    method SendMessage(input: string, isRegenerate: bool, env: Env) returns (request: Option<Request>)
      modifies this
      ensures State() == Send(old(State()), useStreaming, input, isRegenerate, env)
      ensures request == RequestFor(old(State()), input, isRegenerate)
      ensures useStreaming == old(useStreaming)
    {
      if useStreaming {
        request := SendMessageStreaming(input, isRegenerate, env);
      } else {
        request := SendMessageNonStreaming(input, isRegenerate, env.answer);
      }
    }

    method HandleRegenerate(env: Env) returns (request: Option<Request>)
      modifies this
      ensures State() == Regenerate(old(State()), useStreaming, env)
      ensures request == RegenerateRequest(old(State()))
      ensures useStreaming == old(useStreaming)
    {
      if |messages| < 2 {
        return None;
      }
      var last := LastUser(messages);
      if last.None? {
        return None;
      }
      request := SendMessage(messages[last.value].text, true, env);
    }
  }
}
