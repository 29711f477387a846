/** The site's chat widget: the conversation, sending a message, the typewriter reveal, and clearing. */
module Chatbot {
  import opened Wrappers
  import opened Text

  datatype Role = User | Assistant
  datatype Message = Message(role: Role, content: string)

  const Welcome := "Hi! I'm here to help with questions about Horizon Energy South and free home energy upgrades in Georgia. What would you like to know?"
  const WelcomeMessage := Message(Assistant, Welcome)

  const RejectedFallback := "Something went wrong. You can call us at (404) 446-6668 or use the contact form."
  const RequestFailed := "Request failed"
  const Unreachable := "I couldn't reach the server. Please try again or call (404) 446-6668."
  const NetworkError := "Network error"

  /**
   * How the request to the chat endpoint ended: an ok answer with the
   * assistant's message, a non-ok answer whose body may carry an `error`
   * text, or an exception (no connection, or a body that is not JSON).
   */
  datatype Outcome = Answered(message: string) | Rejected(error: Option<string>) | Failed

  /** `data.error || fallback`: an absent or empty error text falls back. */
  function ErrorOr(error: Option<string>, fallback: string): (r: string)
    ensures error.Some? && error.value != "" ==> r == error.value
    ensures error.None? || error.value == "" ==> r == fallback
  {
    if error.Some? && error.value != "" then error.value else fallback
  }

  /** The assistant message appended once the request is over. */
  function Reply(outcome: Outcome): (m: Message)
    ensures m.role == Assistant
    ensures outcome.Answered? ==> m.content == outcome.message
    ensures outcome.Rejected? ==> m.content == ErrorOr(outcome.error, RejectedFallback)
    ensures outcome.Failed? ==> m.content == Unreachable
  {
    match outcome
    case Answered(message) => Message(Assistant, message)
    case Rejected(error) => Message(Assistant, ErrorOr(error, RejectedFallback))
    case Failed => Message(Assistant, Unreachable)
  }

  /** The error line shown under the conversation once the request is over. */
  function ErrorAfter(outcome: Outcome): (e: Option<string>)
    ensures e.None? <==> outcome.Answered?
    ensures outcome.Rejected? ==> e == Some(ErrorOr(outcome.error, RequestFailed))
    ensures outcome.Failed? ==> e == Some(NetworkError)
  {
    match outcome
    case Answered(_) => None
    case Rejected(error) => Some(ErrorOr(error, RequestFailed))
    case Failed => Some(NetworkError)
  }

  /** `content.slice(0, n)` for n >= 0: the first n characters, or all of them. */
  function Slice(content: string, n: nat): (r: string)
    ensures |r| == if n < |content| then n else |content|
    ensures r == content[..|r|]
  {
    if n < |content| then content[..n] else content
  }

  /** What message `i` shows: the revealed prefix while it is being typed, otherwise all of it. */
  function DisplayContent(messages: seq<Message>, i: nat, typingIndex: int, typingLength: nat): (r: string)
    requires i < |messages|
    ensures |r| <= |messages[i].content| && r == messages[i].content[..|r|]
    ensures r != messages[i].content ==> messages[i].role == Assistant && i == typingIndex && |r| == typingLength
  {
    if messages[i].role == Assistant && i == typingIndex then Slice(messages[i].content, typingLength)
    else messages[i].content
  }

  /** Whether message `i` shows the blinking caret. */
  predicate ShowCaret(messages: seq<Message>, i: nat, typingIndex: int, typingLength: nat)
    requires i < |messages|
  {
    messages[i].role == Assistant && i == typingIndex && typingLength < |messages[i].content|
  }

  /**
   * A message always shows a prefix of its text, and the caret is shown
   * exactly when that prefix is not yet the whole text.
   */
  lemma CaretMeansPartial(messages: seq<Message>, i: nat, typingIndex: int, typingLength: nat)
    requires i < |messages|
    ensures var shown := DisplayContent(messages, i, typingIndex, typingLength);
      && shown == messages[i].content[..|shown|]
      && (ShowCaret(messages, i, typingIndex, typingLength) <==> shown != messages[i].content)
  {
  }

  /** The typewriter's state: which message is being revealed (or -1) and how much of it. */
  datatype Typing = Typing(index: int, length: nat)

  /**
   * One firing of the typewriter effect: nothing when no assistant message
   * is being typed; stop once all of it is shown; else reveal one more character.
   */
  function TypewriterStep(messages: seq<Message>, t: Typing): (r: Typing)
    ensures !(0 <= t.index < |messages|) || messages[t.index].role != Assistant ==> r == t
    ensures 0 <= t.index < |messages| && messages[t.index].role == Assistant ==>
      if t.length >= |messages[t.index].content| then r == Typing(-1, t.length)
      else r == Typing(t.index, t.length + 1) && r.length <= |messages[t.index].content|
  {
    if t.index < 0 || t.index >= |messages| then t
    else if messages[t.index].role != Assistant then t
    else
      var target := |messages[t.index].content|;
      if t.length >= target then Typing(-1, t.length)
      else Typing(t.index, if t.length + 1 < target then t.length + 1 else target)
  }

  /** The typewriter run for `n` firings. */
  function TypewriterRun(messages: seq<Message>, t: Typing, n: nat): Typing
    decreases n
  {
    if n == 0 then t else TypewriterRun(messages, TypewriterStep(messages, t), n - 1)
  }

  /**
   * Started on an assistant message, the typewriter reveals it character by
   * character and stops after at most one firing more than its length.
   */
  lemma {:induction false} TypewriterFinishes(messages: seq<Message>, t: Typing)
    requires 0 <= t.index < |messages| && messages[t.index].role == Assistant
    requires t.length <= |messages[t.index].content|
    ensures TypewriterRun(messages, t, |messages[t.index].content| - t.length + 1)
         == Typing(-1, |messages[t.index].content|)
    decreases |messages[t.index].content| - t.length
  {
    var target := |messages[t.index].content|;
    if t.length < target {
      var next := TypewriterStep(messages, t);
      TypewriterFinishes(messages, next);
    }
  }

  /** The widget's state. */
  class Chat {
    var messages: seq<Message>
    var input: string
    var loading: bool
    var error: Option<string>
    var typingIndex: int
    var typingLength: nat

    /**
     * The conversation starts with the welcome message, and a typed message
     * is always an assistant message revealed no further than its length.
     */
    predicate Valid()
      reads this
    {
      && |messages| >= 1 && messages[0] == WelcomeMessage
      && -1 <= typingIndex < |messages|
      && (typingIndex >= 0 ==> messages[typingIndex].role == Assistant
                               && typingLength <= |messages[typingIndex].content|)
    }

    constructor ()
      ensures Valid()
      ensures messages == [WelcomeMessage] && input == "" && !loading && error == None
      ensures typingIndex == -1 && typingLength == 0
    {
      messages := [WelcomeMessage];
      input := "";
      loading := false;
      error := None;
      typingIndex := -1;
      typingLength := 0;
    }

    /** `clearChat`: back to the welcome message alone; the draft is kept. */
    method ClearChat()
      modifies this`messages, this`typingIndex, this`typingLength, this`error
      ensures Valid()
      ensures messages == [WelcomeMessage] && typingIndex == -1 && typingLength == 0 && error == None
    {
      messages := [WelcomeMessage];
      typingIndex := -1;
      typingLength := 0;
      error := None;
    }

    /** One firing of the typewriter effect. */
    method TypewriterTick()
      requires Valid()
      modifies this`typingIndex, this`typingLength
      ensures Valid()
      ensures Typing(typingIndex, typingLength) == TypewriterStep(messages, Typing(old(typingIndex), old(typingLength)))
    {
      var t := TypewriterStep(messages, Typing(typingIndex, typingLength));
      typingIndex, typingLength := t.index, t.length;
    }

    /**
     * `send`: with a non-blank draft and no request in flight, clears the
     * draft, appends the trimmed draft as the user's message, sends the whole
     * conversation so far (returned as `sent`), and appends the reply the
     * outcome calls for. Only an answered request starts the typewriter, on
     * the reply. Nothing changes when the draft is blank or a request is in flight.
     */
    method Send(outcome: Outcome) returns (sent: Option<seq<Message>>)
      requires Valid()
      modifies this
      ensures Valid()
      ensures sent.None? <==> Trim(old(input)) == "" || old(loading)
      ensures sent.None? ==>
        && messages == old(messages) && input == old(input) && loading == old(loading) && error == old(error)
        && typingIndex == old(typingIndex) && typingLength == old(typingLength)
      ensures sent.Some? ==>
        && sent.value == old(messages) + [Message(User, Trim(old(input)))]
        && messages == sent.value + [Reply(outcome)]
        && input == "" && !loading && error == ErrorAfter(outcome)
        && (if outcome.Answered? then typingIndex == |messages| - 1 && typingLength == 0
            else typingIndex == old(typingIndex) && typingLength == old(typingLength))
    {
      var text := Trim(input);
      if text == "" || loading {
        return None;
      }
      input := "";
      error := None;
      var userMessage := Message(User, text);
      var conversation := messages + [userMessage];
      messages := conversation;
      loading := true;
      sent := Some(conversation);
      var reply: Message;
      match outcome {
        case Rejected(e) =>
          reply := Message(Assistant, ErrorOr(e, RejectedFallback));
          error := Some(ErrorOr(e, RequestFailed));
        case Answered(m) =>
          reply := Message(Assistant, m);
          typingIndex := |conversation|;
          typingLength := 0;
        case Failed =>
          reply := Message(Assistant, Unreachable);
          error := Some(NetworkError);
      }
      messages := conversation + [reply];
      loading := false;
    }
  }
}
