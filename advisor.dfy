/** The advisory chat: a message log that starts with a greeting and alternates questions and replies. */
module Advisor {
  import opened Common
  import opened Text

  datatype Role = User | Ai

  datatype Message = Message(role: Role, content: string)

  const Greeting := Message(Ai,
    "Greeting, Wealth-Maker. I am Sika Wura AI. How can I assist you in optimizing your cross-continental capital today?")

  const StandBy := "I am processing the global markets. Please stand by."
  const ConnectionLost := "Connection to the central financial hub lost. Reconnecting..."

  /** The message appended once the advice call settles. */
  function ReplyMessage(reply: ServiceReply): (m: Message)
    ensures m.role == Ai
    ensures reply.Failed? ==> m.content == ConnectionLost
    ensures reply.Replied? && reply.text.Some? && reply.text.value != "" ==> m.content == reply.text.value
    ensures reply.Replied? && (reply.text.None? || reply.text.value == "") ==> m.content == StandBy
  {
    match reply
    case Failed => Message(Ai, ConnectionLost)
    case Replied(text) => Message(Ai, TextOr(text, StandBy))
  }

  /** A reply is never empty, whatever the service does. */
  lemma ReplyNeverEmpty(reply: ServiceReply)
    ensures ReplyMessage(reply).content != ""
  {
    assert |StandBy| > 0 && |ConnectionLost| > 0;
  }

  class Advisor {
    var messages: seq<Message>
    var input: string
    var isTyping: bool

    /** The log always begins with the greeting. */
    ghost predicate Valid()
      reads this
    {
      |messages| >= 1 && messages[0] == Greeting
    }

    constructor ()
      ensures Valid() && messages == [Greeting] && input == "" && !isTyping
    {
      messages := [Greeting];
      input := "";
      isTyping := false;
    }

    method EditInput(text: string)
      modifies this`input
      ensures input == text
    {
      input := text;
    }

    /**
     * `handleSend` up to the advice call: blank input does nothing; otherwise
     * the typed text is logged as the user's message, the input is cleared,
     * and the text is handed to the service as `query`.
     */
    method Send() returns (query: Option<string>)
      requires Valid()
      modifies this`messages, this`input, this`isTyping
      ensures Valid()
      ensures IsBlank(old(input)) ==> query == None && unchanged(this)
      ensures !IsBlank(old(input)) ==>
        && query == Some(old(input))
        && messages == old(messages) + [Message(User, old(input))]
        && input == "" && isTyping
    {
      if IsBlank(input) {
        return None;
      }
      query := Some(input);
      messages := messages + [Message(User, input)];
      input := "";
      isTyping := true;
    }

    /** The advice call settled: exactly one reply is appended after everything logged so far. */
    method ReceiveReply(reply: ServiceReply)
      requires Valid()
      modifies this`messages, this`isTyping
      ensures Valid()
      ensures messages == old(messages) + [ReplyMessage(reply)] && !isTyping
    {
      messages := messages + [ReplyMessage(reply)];
      isTyping := false;
    }
  }
}
