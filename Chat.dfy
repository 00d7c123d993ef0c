/** The chat panel: a list of messages that only grows, the text in the input
    box, the selected model, and a loading flag that guards one simulated reply
    at a time. An accepted send appends the user's message; the later completion
    step appends an assistant reply quoting what was sent. */
module Chat {
  import opened Wrappers
  import opened Text

  datatype Role = User | Assistant

  /** A chat message. The source also stores a `Date.now()` id and a timestamp;
      neither takes part in any decision, so neither is kept. */
  datatype Message = Message(role: Role, content: string)

  /** The one message the panel starts with. */
  const Greeting: Message :=
    Message(Assistant, "Hello! I'm your AI coding assistant. I can help you write, review, debug, and explain code in any programming language. What would you like to work on today?")

  /** The models the selector offers; the first is selected initially. */
  const ModelChoices: seq<string> := ["claude-sonnet-4", "claude-opus-4", "gpt-5", "gpt-4.1", "o4-mini"]

  /** The guard of `handleSendMessage`: the input has a non-whitespace character
      and no reply is pending. */
  predicate Accepts(input: string, loading: bool) {
    !AllWhitespace(input) && !loading
  }

  /** The guard is the source's test: the trimmed input is not empty and nothing is loading. */
  lemma AcceptsIff(input: string, loading: bool)
    ensures Accepts(input, loading) <==> Trim(input) != [] && !loading
  {
    TrimEmptyIff(input);
  }

  /** The fixed text around the quoted request in a simulated reply. */
  const ReplyLead: string := "I understand you want help with: "
  const ReplyTail: string := ". Here's how I can assist you with that code task..."

  /** The simulated reply to a request; it quotes the request verbatim. */
  function Reply(request: string): (m: Message)
    ensures m.role == Assistant
    ensures Contains(m.content, "\"" + request + "\"")
  {
    var quoted := "\"" + request + "\"";
    ContainsMiddle(ReplyLead, quoted, ReplyTail);
    Message(Assistant, ReplyLead + quoted + ReplyTail)
  }

  /** The shape every conversation keeps: the greeting first, then user messages
      and replies alternating, each reply quoting the message just before it. */
  predicate IsDialogue(msgs: seq<Message>) {
    |msgs| >= 1 && msgs[0] == Greeting
    && (forall k :: 0 < k < |msgs| && k % 2 == 1 ==> msgs[k].role == User)
    && (forall k :: 0 < k < |msgs| && k % 2 == 0 ==> msgs[k] == Reply(msgs[k - 1].content))
  }

  /** Sending keeps the dialogue shape when no reply is pending. */
  lemma SendKeepsDialogue(msgs: seq<Message>, text: string)
    requires IsDialogue(msgs) && |msgs| % 2 == 1
    ensures IsDialogue(msgs + [Message(User, text)])
  {
  }

  /** Completing keeps the dialogue shape, and the reply quotes the last user message. */
  lemma CompleteKeepsDialogue(msgs: seq<Message>)
    requires IsDialogue(msgs) && |msgs| % 2 == 0
    ensures msgs[|msgs| - 1].role == User
    ensures IsDialogue(msgs + [Reply(msgs[|msgs| - 1].content)])
  {
  }

  class ChatPanel {
    /** `messages`: the conversation so far. */
    var messages: seq<Message>
    /** `inputMessage`: the text in the input box. */
    var input: string
    /** `selectedModel`: shown in the header only. */
    var selectedModel: string
    /** `isLoading`: a reply is pending and the input box is disabled. */
    var loading: bool
    /** The text captured by the pending reply, if any. */
    var pending: Option<string>

    /** The messages form a dialogue; a reply is pending exactly when the last
        message is the user's, and it quotes that message; the disabled input
        box is empty while loading. */
    ghost predicate Valid()
      reads this
    {
      IsDialogue(messages)
      && (loading <==> |messages| % 2 == 0)
      && (loading <==> pending.Some?)
      && (loading ==> pending.value == messages[|messages| - 1].content && input == [])
      && selectedModel in ModelChoices
    }

    /** The initial state: the greeting alone, an empty box, the first model, idle. */
    constructor ()
      ensures Valid()
      ensures messages == [Greeting] && input == [] && selectedModel == "claude-sonnet-4"
      ensures !loading && pending == None
    {
      messages := [Greeting];
      input := [];
      selectedModel := "claude-sonnet-4";
      loading := false;
      pending := None;
    }

    /** Typing in the input box; a disabled box takes no input. */
    method SetInput(text: string)
      requires Valid()
      modifies this`input
      ensures Valid()
      ensures input == if loading then old(input) else text
    {
      if !loading {
        input := text;
      }
    }

    /** Picking a model in the selector. */
    method SelectModel(model: string)
      requires Valid() && model in ModelChoices
      modifies this`selectedModel
      ensures Valid() && selectedModel == model
    {
      selectedModel := model;
    }

    /** `handleSendMessage`: when the guard passes, append the untrimmed input as a
        user message, clear the box and start loading; otherwise change nothing. */
    method Send() returns (sent: bool)
      requires Valid()
      modifies this`messages, this`input, this`loading, this`pending
      ensures Valid()
      ensures sent == Accepts(old(input), old(loading))
      ensures sent ==> messages == old(messages) + [Message(User, old(input))]
                       && input == [] && loading && pending == Some(old(input))
      ensures !sent ==> messages == old(messages) && input == old(input)
                        && loading == old(loading) && pending == old(pending)
    {
      if AllWhitespace(input) || loading {
        return false;
      }
      SendKeepsDialogue(messages, input);
      messages := messages + [Message(User, input)];
      pending := Some(input);
      input := [];
      loading := true;
      sent := true;
    }

    /** The timer firing: append the reply to the captured text and stop loading. */
    method Complete()
      requires Valid() && loading
      modifies this`messages, this`loading, this`pending
      ensures Valid()
      ensures messages == old(messages) + [Reply(old(pending).value)]
      ensures !loading && pending == None && input == old(input)
    {
      CompleteKeepsDialogue(messages);
      messages := messages + [Reply(pending.value)];
      loading := false;
      pending := None;
    }

    /** `handleKeyPress`: Enter without Shift sends; any other key changes nothing here. */
    method KeyPress(key: string, shift: bool) returns (sent: bool)
      requires Valid()
      modifies this`messages, this`input, this`loading, this`pending
      ensures Valid()
      ensures sent == (key == "Enter" && !shift && Accepts(old(input), old(loading)))
      ensures sent ==> messages == old(messages) + [Message(User, old(input))]
                       && input == [] && loading && pending == Some(old(input))
      ensures !sent ==> messages == old(messages) && input == old(input)
                        && loading == old(loading) && pending == old(pending)
    {
      sent := false;
      if key == "Enter" && !shift {
        sent := Send();
      }
    }
  }
}
