/**
 * The chat widget: its state (open or closed, the message list, the text
 * being typed, whether a reply is awaited) and the transitions of sending a
 * message. The call to the local chat endpoint is not made: its outcome is a
 * parameter of the send.
 */
module Chat {
  import opened Wrappers
  import opened Strings
  import opened Json
  import Collection

  /** One entry of the message list; a reply's text is whatever value the endpoint sent as `message`. */
  datatype Message = Message(text: Json, isUser: bool)

  const Greeting: string := "Hi! I'm your analytics assistant. How can I help you today?"
  const Apology: string := "I apologize, but I encountered an error processing your request."

  /**
   * How the request to the chat endpoint ended: the request itself failed, or
   * a response came back with its `ok` flag, its status text and its body
   * parsed as JSON (or the parse error).
   */
  datatype ChatOutcome =
    | Unanswered(message: string)
    | Responded(ok: bool, statusText: string, data: Result<Json, string>)

  /** The body of the request: `{inputValue: input.trim()}`. */
  function SendBody(input: string): Json {
    JObj([("inputValue", JStr(Trim(input)))])
  }

  /**
   * The reply to show, if any: present exactly when the response was OK, its
   * body parsed, and `data && data.message` is truthy.
   */
  function ReplyText(outcome: ChatOutcome): (r: Option<Json>)
    ensures r.Some? <==>
      && outcome.Responded? && outcome.ok && outcome.data.Success?
      && Truthy(Some(outcome.data.value)) && Truthy(Member(outcome.data.value, Key("message")))
    ensures r.Some? ==> Truthy(r) && r == Member(outcome.data.value, Key("message"))
  {
    match outcome
    case Unanswered(_) => None
    case Responded(ok, _, data) =>
      if !ok then None
      else match data
        case Failure(_) => None
        case Success(d) =>
          if Truthy(Some(d)) && Truthy(Member(d, Key("message"))) then Member(d, Key("message")) else None
  }

  /** The entry appended once the request has ended: the reply, or the apology on any failure. */
  function ReplyMessage(outcome: ChatOutcome): Message {
    match ReplyText(outcome)
    case Some(text) => Message(text, false)
    case None => Message(JStr(Apology), false)
  }

  /**
   * A message list in which the greeting comes first and then, per completed
   * send, the user's non-blank text followed by one reply.
   */
  predicate Transcript(messages: seq<Message>) {
    && |messages| % 2 == 1
    && messages[0] == Message(JStr(Greeting), false)
    && forall i :: 0 <= i < |messages| ==>
         && messages[i].isUser == (i % 2 == 1)
         && (messages[i].isUser ==> messages[i].text.JStr? && !Blank(messages[i].text.s))
  }

  class ChatBot {
    var isOpen: bool
    var messages: seq<Message>
    var input: string
    var isLoading: bool

    /** No send in progress and the list is a well-formed transcript. */
    predicate Idle()
      reads this
    {
      !isLoading && Transcript(messages)
    }

    /** The initial state: closed, only the greeting, nothing typed, nothing awaited. */
    constructor()
      ensures !isOpen && messages == [Message(JStr(Greeting), false)] && input == "" && !isLoading
      ensures Idle()
    {
      isOpen := false;
      messages := [Message(JStr(Greeting), false)];
      input := "";
      isLoading := false;
    }

    /** The launcher button. */
    method Open()
      modifies this
      ensures isOpen
      ensures messages == old(messages) && input == old(input) && isLoading == old(isLoading)
    {
      isOpen := true;
    }

    /** The close button of the panel. */
    method Close()
      modifies this
      ensures !isOpen
      ensures messages == old(messages) && input == old(input) && isLoading == old(isLoading)
    {
      isOpen := false;
    }

    /** The text field's change handler. */
    method SetInput(value: string)
      modifies this
      ensures input == value
      ensures messages == old(messages) && isOpen == old(isOpen) && isLoading == old(isLoading)
    {
      input := value;
    }

    /**
     * `handleSend` up to the request: a blank input changes nothing and sends
     * nothing; otherwise the untrimmed text is appended as the user's message,
     * loading starts, and the trimmed text is sent.
     */
    method BeginSend() returns (request: Option<Json>)
      modifies this
      ensures Blank(old(input)) ==>
        && request == None
        && messages == old(messages) && input == old(input) && isLoading == old(isLoading)
      ensures !Blank(old(input)) ==>
        && request == Some(SendBody(old(input)))
        && messages == old(messages) + [Message(JStr(old(input)), true)]
        && isLoading && input == old(input)
      ensures isOpen == old(isOpen)
    {
      var text := input;
      if Blank(text) {
        return None;
      }
      messages := messages + [Message(JStr(text), true)];
      isLoading := true;
      request := Some(SendBody(text));
    }

    /** `handleSend` after the request: one reply or apology, then loading stops and the field is cleared. */
    method FinishSend(outcome: ChatOutcome)
      modifies this
      ensures messages == old(messages) + [ReplyMessage(outcome)]
      ensures !isLoading && input == ""
      ensures isOpen == old(isOpen)
    {
      var reply := ReplyText(outcome);
      if reply.Some? {
        messages := messages + [Message(reply.value, false)];
      } else {
        messages := messages + [Message(JStr(Apology), false)];
      }
      isLoading := false;
      input := "";
    }

    /**
     * One completed `handleSend`: the list only grows, by exactly the user's
     * message and one reply when the input is not blank, and the transcript
     * shape is kept.
     */
    method HandleSend(outcome: ChatOutcome) returns (request: Option<Json>)
      requires Idle()
      modifies this
      ensures Idle()
      ensures Blank(old(input)) ==>
        request == None && messages == old(messages) && input == old(input)
      ensures !Blank(old(input)) ==>
        && request == Some(SendBody(old(input)))
        && messages == old(messages) + [Message(JStr(old(input)), true), ReplyMessage(outcome)]
        && input == ""
      ensures messages[..|old(messages)|] == old(messages)
      ensures |messages| == |old(messages)| + (if Blank(old(input)) then 0 else 2)
      ensures isOpen == old(isOpen)
    {
      var before := messages;
      var text := input;
      request := BeginSend();
      if request.Some? {
        FinishSend(outcome);
        TranscriptExtends(before, text, ReplyMessage(outcome));
      }
    }
  }

  /** Appending a non-blank user message and a reply keeps the transcript shape. */
  lemma TranscriptExtends(messages: seq<Message>, input: string, reply: Message)
    requires Transcript(messages) && !Blank(input) && !reply.isUser
    ensures Transcript(messages + [Message(JStr(input), true), reply])
  {
    var m := messages + [Message(JStr(input), true), reply];
    forall i | 0 <= i < |m|
      ensures m[i].isUser == (i % 2 == 1)
      ensures m[i].isUser ==> m[i].text.JStr? && !Blank(m[i].text.s)
    {
      if i < |messages| {
        assert m[i] == messages[i];
      }
    }
  }

  /**
   * What the widget sends is accepted by the chat endpoint: the trimmed text
   * is the input and the endpoint's defaults fill in the rest (chat in, chat
   * out, no streaming).
   */
  lemma SendBodyAccepted(input: string)
    requires !Blank(input)
    ensures Collection.Accept(Success(SendBody(input))) ==
      Success(Collection.ChatArgs(JStr(Trim(input)), JStr("chat"), JStr("chat"), JBool(false)))
  {
    var v := JStr(Trim(input));
    assert Truthy(Some(v));
    OtherMemberMissing("inputValue", v, "inputType", 6);
    OtherMemberMissing("inputValue", v, "outputType", 0);
    OtherMemberMissing("inputValue", v, "stream", 0);
  }

  /** A one-member object has no member under another name (the names differ at position `at`). */
  lemma OtherMemberMissing(name: string, v: Json, other: string, at: nat)
    requires at < |name| && at < |other| && name[at] != other[at]
    ensures Member(JObj([(name, v)]), Key(other)) == None
  {
  }

  /**
   * How the widget shows what the endpoint answers: a non-empty text reply is
   * shown as is; an error reply, and the raw `{response}` reply the endpoint
   * gives when it does not extract a text, both show the apology.
   */
  lemma EndpointRepliesShown(statusText: string, text: string, message: string, response: Json, status: nat)
    requires status in {400, 500}
    ensures text != "" ==>
      ReplyMessage(Responded(true, statusText, Success(JObj([("message", JStr(text))])))) == Message(JStr(text), false)
    ensures ReplyMessage(Responded(Collection.IsOk(status), statusText,
                                   Success(Collection.ErrorReply(status, message).body))) == Message(JStr(Apology), false)
    ensures ReplyMessage(Responded(true, statusText, Success(JObj([("response", response)])))) == Message(JStr(Apology), false)
  {
    OtherMemberMissing("response", response, "message", 0);
  }
}
