/** The state the chat screen holds: the active chat id, the transcript and the
    in-flight flag, and the pure rewrites of the transcript that the transitions
    hand to the state setter. */
module ChatState {
  import opened Wrappers

  /** What the upload dialog reports once the backend has indexed a file. */
  datatype Document = Document(filename: string, chunks: int, size: int)

  /** One transcript entry. A chat entry `{id?, role, message}` carries text and,
      for a streamed reply, the timestamp id of its placeholder; a document entry
      `{role: "document", document}` carries no id and no text. */
  datatype Message =
    | Chat(id: Option<int>, role: string, text: string)
    | Attachment(document: Document)
  {
    function Role(): (r: string) {
      if Chat? then role else "document"
    }

    predicate IsUser() {
      Role() == "user"
    }

    /** `msg.id === key`: only a chat entry created with that id matches. */
    predicate HasId(key: int)
      ensures Attachment? ==> !HasId(key)
      ensures HasId(key) ==> Chat? && id == Some(key)
    {
      Chat? && id == Some(key)
    }
  }

  /** One entry of a stored chat as the history endpoint returns it. */
  datatype StoredMessage = StoredMessage(role: string, message: string)

  /** `chatId`, `messages` and `loading`. */
  datatype Session = Session(chatId: Option<string>, messages: seq<Message>, loading: bool)

  /** The text shown when a reply could not be obtained. */
  const Fallback := "Sorry, I encountered an error. Please try again."

  function UserMessage(input: string): (m: Message)
    ensures m.IsUser()
  {
    Chat(None, "user", input)
  }

  function AssistantMessage(text: string): (m: Message) {
    Chat(None, "assistant", text)
  }

  /** The empty assistant entry a streamed reply grows into. */
  function Placeholder(key: int): (m: Message)
    ensures m.HasId(key) && m.text == ""
  {
    Chat(Some(key), "assistant", "")
  }

  /** `prev.slice(0, -1)`: everything but the last entry; empty stays empty. */
  function DropLast(msgs: seq<Message>): (r: seq<Message>)
    ensures |r| == if msgs == [] then 0 else |msgs| - 1
    ensures r == msgs[..|r|]
  {
    if msgs == [] then [] else msgs[..|msgs| - 1]
  }

  /** `{...msg, message: msg.message + token}` for an entry carrying `key`, the entry itself otherwise. */
  function Extend(m: Message, key: int, token: string): (r: Message)
    ensures r.Role() == m.Role() && (r.HasId(key) <==> m.HasId(key))
  {
    if m.HasId(key) then m.(text := m.text + token) else m
  }

  /** The `map` that appends one streamed token to every entry carrying `key`. */
  function AppendToken(msgs: seq<Message>, key: int, token: string): (r: seq<Message>)
    ensures |r| == |msgs|
    ensures forall k | 0 <= k < |r| :: r[k].Role() == msgs[k].Role() && (r[k].HasId(key) <==> msgs[k].HasId(key))
  {
    seq(|msgs|, k requires 0 <= k < |msgs| => Extend(msgs[k], key, token))
  }

  /** The `map` of the streaming error path: an entry carrying `key` whose text is
      empty gets the fallback text; every other entry is kept. */
  function ApplyFallback(msgs: seq<Message>, key: int): (r: seq<Message>)
    ensures |r| == |msgs|
    ensures forall k | 0 <= k < |r| :: r[k].Role() == msgs[k].Role() && (r[k].HasId(key) <==> msgs[k].HasId(key))
  {
    seq(|msgs|, k requires 0 <= k < |msgs| =>
      if msgs[k].HasId(key) && msgs[k].text == "" then msgs[k].(text := Fallback) else msgs[k])
  }

  /** The `map` that turns stored history into transcript entries, keeping role and text and dropping ids. */
  function FormatStored(stored: seq<StoredMessage>): (r: seq<Message>)
    ensures |r| == |stored|
    ensures forall k | 0 <= k < |r| :: r[k].Chat? && r[k].id == None
  {
    seq(|stored|, k requires 0 <= k < |stored| => Chat(None, stored[k].role, stored[k].message))
  }

  /** `[...messages].reverse().find(msg => msg.role === "user")`, as an index. */
  function LastUser(msgs: seq<Message>): (r: Option<nat>)
    ensures r.Some? ==> r.value < |msgs| && msgs[r.value].IsUser()
    ensures r.Some? ==> forall j | r.value < j < |msgs| :: !msgs[j].IsUser()
    ensures r.None? ==> forall j | 0 <= j < |msgs| :: !msgs[j].IsUser()
  {
    LastUserBelow(msgs, |msgs|)
  }

  /** The scan of `LastUser` over the first `n` entries, from the end. */
  function LastUserBelow(msgs: seq<Message>, n: nat): (r: Option<nat>)
    requires n <= |msgs|
    ensures r.Some? ==> r.value < n && msgs[r.value].IsUser()
    ensures r.Some? ==> forall j | r.value < j < n :: !msgs[j].IsUser()
    ensures r.None? ==> forall j | 0 <= j < n :: !msgs[j].IsUser()
  {
    if n == 0 then None
    else if msgs[n - 1].IsUser() then Some(n - 1)
    else LastUserBelow(msgs, n - 1)
  }

  /** Appending two tokens one after the other is appending their concatenation. */
  lemma AppendTokenTwice(msgs: seq<Message>, key: int, a: string, b: string)
    ensures AppendToken(AppendToken(msgs, key, a), key, b) == AppendToken(msgs, key, a + b)
  {
    var lhs := AppendToken(AppendToken(msgs, key, a), key, b);
    forall k | 0 <= k < |msgs| ensures lhs[k] == AppendToken(msgs, key, a + b)[k] {
      if msgs[k].HasId(key) {
        assert msgs[k].text + a + b == msgs[k].text + (a + b);
      }
    }
  }

  /** Appending the empty token changes nothing. */
  lemma AppendEmptyToken(msgs: seq<Message>, key: int)
    ensures AppendToken(msgs, key, "") == msgs
  {
    forall k | 0 <= k < |msgs| ensures AppendToken(msgs, key, "")[k] == msgs[k] {
      if msgs[k].HasId(key) {
        assert msgs[k].text + "" == msgs[k].text;
      }
    }
  }

  /** A token reaches exactly the entries carrying `key`: each of them keeps its id and
      role and has the token added to its text; every other entry and the length are unchanged. */
  lemma AppendTokenTouchesOnlyKey(msgs: seq<Message>, key: int, token: string)
    ensures |AppendToken(msgs, key, token)| == |msgs|
    ensures forall k | 0 <= k < |msgs| && !msgs[k].HasId(key) :: AppendToken(msgs, key, token)[k] == msgs[k]
    ensures forall k | 0 <= k < |msgs| && msgs[k].HasId(key) ::
      AppendToken(msgs, key, token)[k] == Chat(Some(key), msgs[k].role, msgs[k].text + token)
  {
  }

  /** The fallback reaches only empty entries carrying `key`. */
  lemma ApplyFallbackTouchesOnlyEmptyKey(msgs: seq<Message>, key: int)
    ensures |ApplyFallback(msgs, key)| == |msgs|
    ensures forall k | 0 <= k < |msgs| && !(msgs[k].HasId(key) && msgs[k].text == "") ::
      ApplyFallback(msgs, key)[k] == msgs[k]
    ensures forall k | 0 <= k < |msgs| && msgs[k].HasId(key) && msgs[k].text == "" ::
      ApplyFallback(msgs, key)[k] == Chat(Some(key), msgs[k].role, Fallback)
  {
  }

  /** Loaded history has one entry per stored message, in order, with its role and text and no id. */
  lemma FormatStoredKeepsRolesAndText(stored: seq<StoredMessage>)
    ensures |FormatStored(stored)| == |stored|
    ensures forall k | 0 <= k < |stored| ::
      && FormatStored(stored)[k].Role() == stored[k].role
      && FormatStored(stored)[k].text == stored[k].message
      && FormatStored(stored)[k].id == None
  {
  }
}
