/**
 * The chat screen's state and its send step. The screen keeps the displayed
 * messages, the input box, and two busy flags; sending a message appends it
 * locally, persists it, posts the conversation to the chat proxy and appends
 * the reply (or a fixed apology). The network reply and the outcome of each
 * store write are parameters; persisted records and posted requests are kept,
 * in the order they happen, in one event log.
 */
module ChatPage {
  import opened Wrappers
  import Text
  import ChatProxy

  /** Who wrote a displayed message: `'user' | 'ai'`. */
  datatype Role = UserRole | AiRole

  /** A displayed message (its clock-based id and timestamp are not modelled). */
  datatype Message = Message(text: string, role: Role)

  /** A stored chat document as a snapshot delivers it. */
  datatype StoredDoc = StoredDoc(id: string, text: string, role: Role, userId: string)

  /** What the store receives for one message. */
  datatype Record = Record(text: string, role: Role, userId: string)

  /** One externally visible effect of the screen, in the order it happens. */
  datatype Event =
    | Saved(record: Record)                // a successful store write
    | Posted(history: seq<ChatProxy.Turn>) // a POST to the chat proxy with this `messages` body

  /**
   * What `fetch` and `response.json()` yield: a failure (rejection or an
   * unparsable body), or a parsed reply with its `ok` flag and `message` field.
   */
  datatype FetchOutcome = FetchFailed | Replied(ok: bool, message: string)

  const ErrorReply: string := "Sorry, I encountered an error. Please try again."

  /** The role name the proxy expects: `ai` becomes `assistant`, `user` stays `user`. */
  function RoleName(role: Role): (name: string)
    ensures name == "assistant" <==> role == AiRole
    ensures name == "user" <==> role == UserRole
  {
    match role
    case AiRole => "assistant"
    case UserRole => "user"
  }

  /** A displayed message as a turn of the outbound history. */
  function AsTurn(m: Message): ChatProxy.Turn {
    ChatProxy.Turn(RoleName(m.role), m.text)
  }

  /** The outbound history for displayed messages: one turn per message, same order. */
  function History(ms: seq<Message>): (h: seq<ChatProxy.Turn>)
    ensures |h| == |ms|
    ensures forall i :: 0 <= i < |ms| ==> h[i] == AsTurn(ms[i])
  {
    if ms == [] then [] else History(ms[..|ms| - 1]) + [AsTurn(ms[|ms| - 1])]
  }

  /** The displayed list a snapshot yields: one message per document, in snapshot order. */
  function FromSnapshot(docs: seq<StoredDoc>): (ms: seq<Message>)
    ensures |ms| == |docs|
    ensures forall i :: 0 <= i < |docs| ==> ms[i] == Message(docs[i].text, docs[i].role)
  {
    if docs == [] then []
    else FromSnapshot(docs[..|docs| - 1]) + [Message(docs[|docs| - 1].text, docs[|docs| - 1].role)]
  }

  /** The send guard: a non-blank input and no send already in progress. */
  predicate Accepts(input: string, loading: bool): (ok: bool)
    ensures ok <==> !Text.Blank(input) && !loading
  {
    Text.Trim(input) != [] && !loading
  }

  /** The text appended after the round trip: the reply on a 2xx answer, the apology otherwise. */
  function ReplyText(reply: FetchOutcome): (text: string)
    ensures reply.Replied? && reply.ok ==> text == reply.message
    ensures !(reply.Replied? && reply.ok) ==> text == ErrorReply
  {
    if reply.Replied? && reply.ok then reply.message else ErrorReply
  }

  /** The events one store write adds: a record when a user is signed in and the write succeeds. */
  function Persisted(userId: Option<string>, text: string, role: Role, written: bool): (es: seq<Event>)
    ensures |es| <= 1
    ensures es != [] <==> userId.Some? && written
    ensures es != [] ==> es[0] == Saved(Record(text, role, userId.value))
  {
    if userId.Some? && written then [Saved(Record(text, role, userId.value))] else []
  }

  class Page {
    const userId: Option<string>
    var messages: seq<Message>
    var input: string
    var isTyping: bool
    var loading: bool
    ghost var log: seq<Event>

    constructor (userId: Option<string>)
      ensures this.userId == userId
      ensures messages == [] && input == "" && !loading && !isTyping && log == []
    {
      this.userId := userId;
      messages, input := [], "";
      isTyping, loading := false, false;
      log := [];
    }

    /** The input box's change handler. */
    method SetInput(text: string)
      modifies this`input
      ensures input == text
    {
      input := text;
    }

    /** Writes one message to the store; `saveMessageToFirestore` logs a failed write and otherwise ignores it. */
    method SaveMessage(text: string, role: Role, written: bool)
      modifies this`log
      ensures log == old(log) + Persisted(userId, text, role, written)
    {
      if userId.Some? && written {
        log := log + [Saved(Record(text, role, userId.value))];
      }
    }

    /**
     * The send step, from submission to the end of the round trip.
     * `reply` is what the proxy request yields; `userWritten` and
     * `aiWritten` say whether the two store writes succeed.
     */
    method SendMessage(reply: FetchOutcome, userWritten: bool, aiWritten: bool)
      modifies this`messages, this`input, this`isTyping, this`loading, this`log
      ensures !Accepts(old(input), old(loading)) ==>
        && messages == old(messages) && input == old(input)
        && loading == old(loading) && isTyping == old(isTyping) && log == old(log)
      ensures Accepts(old(input), old(loading)) ==>
        var text := Text.Trim(old(input));
        var answer := ReplyText(reply);
        && input == ""
        && !loading && !isTyping
        && messages == old(messages) + [Message(text, UserRole)] + [Message(answer, AiRole)]
        && log == old(log)
                  + Persisted(userId, text, UserRole, userWritten)
                  + [Posted(History(old(messages)) + [ChatProxy.Turn("user", text)])]
                  + Persisted(userId, answer, AiRole, aiWritten)
    {
      if Text.Trim(input) == [] || loading {
        return;
      }
      var userMessage := Text.Trim(input);
      var prior := messages;
      input := "";
      loading := true;
      isTyping := true;
      messages := messages + [Message(userMessage, UserRole)];
      SaveMessage(userMessage, UserRole, userWritten);

      var chatHistory := History(prior);
      chatHistory := chatHistory + [ChatProxy.Turn("user", userMessage)];
      log := log + [Posted(chatHistory)];

      if reply.Replied? && reply.ok {
        messages := messages + [Message(reply.message, AiRole)];
        SaveMessage(reply.message, AiRole, aiWritten);
      } else {
        messages := messages + [Message(ErrorReply, AiRole)];
        SaveMessage(ErrorReply, AiRole, aiWritten);
      }
      loading := false;
      isTyping := false;
    }

    /** The subscription callback: the snapshot replaces the displayed list wholesale. */
    method ApplySnapshot(docs: seq<StoredDoc>)
      modifies this`messages
      ensures messages == FromSnapshot(docs)
    {
      messages := FromSnapshot(docs);
    }
  }

  /**
   * The history the screen posts reaches the provider as the persona turn,
   * then one turn per earlier message, then the new user turn.
   */
  lemma PostedHistoryReachesProvider(prior: seq<Message>, text: string, provider: ChatProxy.ProviderOutcome)
    ensures
      var sent := History(prior) + [ChatProxy.Turn("user", text)];
      var x := ChatProxy.Handle(ChatProxy.Array(sent), provider);
      && |x.calls| == 1
      && |x.calls[0].messages| == |prior| + 2
      && x.calls[0].messages[0] == ChatProxy.PersonaTurn
      && (forall i :: 0 <= i < |prior| ==> x.calls[0].messages[i + 1] == AsTurn(prior[i]))
      && x.calls[0].messages[|prior| + 1] == ChatProxy.Turn("user", text)
  {
  }

  /** A non-2xx reply is handled exactly like a failed request, whatever it carries. */
  lemma NonOkIsFailure(message: string)
    ensures ReplyText(Replied(false, message)) == ReplyText(FetchFailed) == ErrorReply
  {
  }

  /** Re-deriving the history from a snapshot keeps each stored role, mapped for the proxy. */
  lemma SnapshotHistory(docs: seq<StoredDoc>)
    ensures |History(FromSnapshot(docs))| == |docs|
    ensures forall i :: 0 <= i < |docs| ==>
      History(FromSnapshot(docs))[i] == ChatProxy.Turn(RoleName(docs[i].role), docs[i].text)
  {
  }
}
