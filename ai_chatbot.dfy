/**
 * The AIChatbot panel of components/ToolRenderer.tsx: a prompt box and an
 * append-only transcript of user questions and assistant answers.
 */
module Chat {
  import opened JsStrings

  datatype Role = User | Ai

  datatype Message = Message(role: Role, text: string)

  /**
   * What the text-generation service does with one request: it answers
   * with a response text (empty when the response carries none), or the
   * call throws.
   */
  datatype Reply = Answered(text: string) | Unavailable

  const SorryText := "I'm sorry, I couldn't generate a response."
  const UnavailableText := "Service temporarily unavailable. Please try again later."

  /** The text of the assistant entry appended for a reply. */
  function AiText(reply: Reply): (t: string)
    ensures t != ""
    ensures reply.Answered? && reply.text != "" ==> t == reply.text
    ensures reply.Answered? && reply.text == "" ==> t == SorryText
    ensures reply.Unavailable? ==> t == UnavailableText
  {
    match reply
    case Answered(text) => if text != "" then text else SorryText
    case Unavailable => UnavailableText
  }

  /** The transcript alternates: each user entry is followed by its assistant entry. */
  predicate Alternating(ms: seq<Message>) {
    |ms| % 2 == 0 &&
    forall k | 0 <= k < |ms| :: ms[k].role == if k % 2 == 0 then User else Ai
  }

  class AIChatbot {
    var prompt: string
    var messages: seq<Message>
    var loading: bool

    constructor()
      ensures prompt == "" && messages == [] && !loading
    {
      prompt := "";
      messages := [];
      loading := false;
    }

    /** The input box's onChange. */
    method SetPrompt(p: string)
      modifies this`prompt
      ensures prompt == p && messages == old(messages) && loading == old(loading)
    {
      prompt := p;
    }

    /**
     * ask: a blank prompt does nothing; otherwise the prompt is cleared and
     * the transcript grows by exactly the user's text and the assistant's
     * answer to it.
     */
    method Ask(reply: Reply)
      modifies this
      ensures IsBlank(old(prompt)) ==>
        prompt == old(prompt) && messages == old(messages) && loading == old(loading)
      ensures !IsBlank(old(prompt)) ==>
        prompt == "" && !loading &&
        messages == old(messages) + [Message(User, old(prompt)), Message(Ai, AiText(reply))]
      ensures Alternating(old(messages)) ==> Alternating(messages)
    {
      if IsBlank(prompt) {
        return;
      }
      var userMsg := prompt;
      prompt := "";
      ghost var before := messages;
      messages := messages + [Message(User, userMsg)];
      loading := true;
      messages := messages + [Message(Ai, AiText(reply))];
      loading := false;
      assert forall k | 0 <= k < |before| :: messages[k] == before[k];
    }
  }

  /** Asking "hello" of a service that answers "hi there" gives that two-entry transcript. */
  method HelloExchange() returns (transcript: seq<Message>)
    ensures transcript == [Message(User, "hello"), Message(Ai, "hi there")]
  {
    var chat := new AIChatbot();
    chat.SetPrompt("hello");
    assert !IsJsWhitespace("hello"[0]);
    chat.Ask(Answered("hi there"));
    transcript := chat.messages;
  }
}
