/**
 * The chat page (client/src/components/chats/Chat.tsx): a log of messages, the pending query,
 * the text box and the selected category. Sending sets the pending query; an effect that runs
 * whenever the pending query changes appends the human message, clears the text box and posts
 * the conversation; the reply, whatever it is, appends one "ai" message and clears the pending
 * query. The network is an input: the reply that settles the request.
 */
module Chat {
  import opened Wrappers
  import opened Text
  import opened Sources

  const HumanRole := "human"
  const AiRole := "ai"

  /** The text shown when an exchange fails (spelling as in the application). */
  const FallbackText := "An error has occured. Please try again!"

  /** The answer after which sources are not listed; handed to `match`, so its `.` is a wildcard. */
  const NotFoundPhrase := "I was unable to find any information on the topic. Please contact the Bid Management team"

  /** `ChatMessage`: `sources` is absent on human messages and on the fallback message. */
  datatype Message = Message(role: string, content: string, sources: Option<seq<Entry>>)

  /** A category option; `caption` is its `label`. */
  datatype Category = Category(id: string, caption: string)

  /** The options of the category picker. */
  const CategoryOptions: seq<Category> := [
    Category("0c4cd936-a251-4366-8b8c-38942db944d5", "Industrial Sector"),
    Category("0c96428e-3946-48e2-bc49-c1b57f41253b", "Professional Sector"),
    Category("d3d8f1da-0ef0-4a15-b410-139da4fa8715", "Healthcare Sector")
  ]

  /** The JSON body posted to `/api/v1/chats`; an absent category is sent as `null`. */
  datatype ChatRequest = ChatRequest(category: Option<Category>, chats: seq<Message>)

  datatype ChatBody = ChatBody(response: string, sources: Option<seq<Entry>>)

  /**
   * How the request settles: a parsed envelope (`success` and an optional `body`), or a fault of
   * the transport or of JSON parsing.
   */
  datatype ChatReply = Envelope(success: bool, body: Option<ChatBody>) | TransportFault

  function HumanMessage(text: string): Message {
    Message(HumanRole, text, None)
  }

  /**
   * The one "ai" message a settled request appends. A success envelope with a body gives its
   * `response` and `sources`; a non-success envelope (rethrown), a success envelope without a body
   * (reading `body.response` throws) and a fault all give the fallback text without sources.
   */
  function AiMessage(reply: ChatReply): (m: Message)
    ensures m.role == AiRole
    ensures reply.Envelope? && reply.success && reply.body.Some? ==>
              m.content == reply.body.value.response && m.sources == reply.body.value.sources
    ensures !(reply.Envelope? && reply.success && reply.body.Some?) ==>
              m.content == FallbackText && m.sources == None
  {
    match reply
    case Envelope(true, Some(body)) => Message(AiRole, body.response, body.sources)
    case _ => Message(AiRole, FallbackText, None)
  }

  /** Whether a message lists its sources (Chat.tsx:154-155). */
  predicate ShowSources(m: Message): (r: bool)
    ensures r ==> m.sources.Some? && m.sources.value != []
  {
    |m.sources.GetOr([])| > 0 && !ContainsMatch(Lower(m.content), Lower(NotFoundPhrase))
  }

  // ---------------------------------------------------------------------------------------------
  // The page's state and its transitions.

  /** `chatLog`, `searchQuery`, `chatboxInput`, `categorySelected`. */
  datatype ChatState = ChatState(log: seq<Message>, query: string, input: string, category: Option<Category>)

  function Initial(): ChatState {
    ChatState([], "", "", None)
  }

  /** The text box's onChange. */
  function Typed(s: ChatState, text: string): ChatState {
    s.(input := text)
  }

  /** The send icon's onClick: an empty text box is ignored; otherwise it becomes the query. */
  function Sent(s: ChatState): ChatState {
    if |s.input| == 0 then s else s.(query := s.input)
  }

  datatype Submission = Submission(state: ChatState, request: Option<ChatRequest>)

  /** The effect on `searchQuery`: nothing for an empty query, else append, clear and post. */
  function Submitted(s: ChatState): Submission {
    if |s.query| == 0 then Submission(s, None)
    else
      var human := HumanMessage(s.input);
      Submission(s.(log := s.log + [human], input := ""), Some(ChatRequest(s.category, s.log + [human])))
  }

  /** The request's `.then`/`.catch` appending the reply, then `.finally` clearing the query. */
  function Settled(s: ChatState, reply: ChatReply): ChatState {
    s.(log := s.log + [AiMessage(reply)], query := "")
  }

  /** The delete icon's onClick. */
  function Cleared(s: ChatState): ChatState {
    s.(log := [])
  }

  /** The category picker's onChange. */
  function CategoryChanged(s: ChatState, c: Option<Category>): ChatState {
    s.(category := c)
  }

  /**
   * One exchange in which the user types `text` and clicks send, and the request is settled by
   * `reply` before anything else happens. The effect runs only when the click changed the query;
   * after the reply it runs once more on the cleared query, and returns at once.
   */
  function Exchange(s: ChatState, text: string, reply: ChatReply): (r: ChatState)
    ensures r.log == s.log || r.log == s.log + [HumanMessage(text), AiMessage(reply)]
    ensures r.category == s.category
  {
    var sent := Sent(Typed(s, text));
    if sent.query == s.query then sent
    else Submitted(Settled(Submitted(sent).state, reply)).state
  }

  datatype Action = Ask(text: string, reply: ChatReply) | ClearLog | PickCategory(c: Option<Category>)

  function Step(s: ChatState, a: Action): ChatState {
    match a
    case Ask(text, reply) => Exchange(s, text, reply)
    case ClearLog => Cleared(s)
    case PickCategory(c) => CategoryChanged(s, c)
  }

  /** A session of actions, each exchange settled before the next action. */
  function Run(s: ChatState, actions: seq<Action>): ChatState
    decreases |actions|
  {
    if actions == [] then s else Run(Step(s, actions[0]), actions[1..])
  }

  /** The log is a sequence of human/ai pairs. */
  predicate Paired(log: seq<Message>) {
    |log| % 2 == 0 && forall i :: 0 <= i < |log| ==> log[i].role == (if i % 2 == 0 then HumanRole else AiRole)
  }

  // ---------------------------------------------------------------------------------------------
  // Properties of single transitions.

  lemma EmptySendChangesNothing(s: ChatState)
    requires s.input == ""
    ensures Sent(s) == s
  {
  }

  /** The code has no guard against a second send while a request is pending. */
  lemma SendWhilePendingIsAccepted(s: ChatState)
    requires s.query != "" && s.input != ""
    ensures Sent(s).query == s.input && Sent(s).log == s.log
  {
  }

  lemma EmptyQuerySubmitsNothing(s: ChatState)
    requires s.query == ""
    ensures Submitted(s) == Submission(s, None)
  {
  }

  /** A pending query appends one human message with the text box's content and posts the log. */
  lemma SubmitAppendsHumanMessage(s: ChatState)
    requires s.query != ""
    ensures var sub := Submitted(s);
      && sub.state.log == s.log + [Message(HumanRole, s.input, None)]
      && sub.state.input == ""
      && sub.state.query == s.query && sub.state.category == s.category
      && sub.request == Some(ChatRequest(s.category, s.log + [Message(HumanRole, s.input, None)]))
  {
  }

  lemma SettleAppendsOneAiMessage(s: ChatState, reply: ChatReply)
    ensures var r := Settled(s, reply);
      && r.log == s.log + [AiMessage(reply)]
      && r.query == ""
      && r.input == s.input && r.category == s.category
  {
  }

  lemma ClearEmptiesLog(s: ChatState)
    ensures Cleared(s) == ChatState([], s.query, s.input, s.category)
  {
  }

  lemma CategoryChangeTouchesOnlyCategory(s: ChatState, c: Option<Category>)
    ensures CategoryChanged(s, c) == ChatState(s.log, s.query, s.input, c)
  {
  }

  // ---------------------------------------------------------------------------------------------
  // Properties of exchanges and sessions.

  /** From an idle page, a non-empty send lengthens the log by a human and an ai message. */
  lemma ExchangeAppendsPair(s: ChatState, text: string, reply: ChatReply)
    requires s.query == ""
    ensures var r := Exchange(s, text, reply);
      && r.query == "" && r.category == s.category
      && (text == "" ==> r.log == s.log)
      && (text != "" ==> r.log == s.log + [HumanMessage(text), AiMessage(reply)] && r.input == "")
  {
    if text != "" {
      var sent := Sent(Typed(s, text));
      assert sent.query == text;
      var pending := Submitted(sent).state;
      assert pending.log == s.log + [HumanMessage(text)];
      assert Settled(pending, reply).log == s.log + [HumanMessage(text)] + [AiMessage(reply)];
    }
  }

  lemma {:induction false} PairedAppend(log: seq<Message>, text: string, reply: ChatReply)
    requires Paired(log)
    ensures Paired(log + [HumanMessage(text), AiMessage(reply)])
  {
    var r := log + [HumanMessage(text), AiMessage(reply)];
    forall i | 0 <= i < |r| ensures r[i].role == (if i % 2 == 0 then HumanRole else AiRole) {
      if i < |log| {
        assert r[i] == log[i];
      }
    }
  }

  /**
   * Once every exchange settles before the next action, the page is idle after each action and
   * its log consists of human/ai pairs.
   */
  lemma {:induction false} RunKeepsPairs(s: ChatState, actions: seq<Action>)
    requires s.query == "" && Paired(s.log)
    ensures Run(s, actions).query == "" && Paired(Run(s, actions).log)
    decreases |actions|
  {
    if actions != [] {
      var next := Step(s, actions[0]);
      match actions[0] {
        case Ask(text, reply) =>
          ExchangeAppendsPair(s, text, reply);
          if text != "" {
            PairedAppend(s.log, text, reply);
          }
        case ClearLog =>
        case PickCategory(c) =>
      }
      RunKeepsPairs(next, actions[1..]);
    }
  }

  /** No category, or one of the options the picker offers. */
  predicate Offered(c: Option<Category>) {
    c.None? || c.value in CategoryOptions
  }

  /** When every pick is one the picker offers, the selected category stays one of its options. */
  lemma {:induction false} RunKeepsOfferedCategory(s: ChatState, actions: seq<Action>)
    requires Offered(s.category)
    requires forall i :: 0 <= i < |actions| && actions[i].PickCategory? ==> Offered(actions[i].c)
    ensures Offered(Run(s, actions).category)
    decreases |actions|
  {
    if actions != [] {
      var rest := actions[1..];
      assert forall i :: 0 <= i < |rest| ==> rest[i] == actions[i + 1];
      RunKeepsOfferedCategory(Step(s, actions[0]), rest);
    }
  }

  /** Every session from a fresh page leaves a log of even length. */
  lemma SessionLogIsEven(actions: seq<Action>)
    ensures |Run(Initial(), actions).log| % 2 == 0
  {
    RunKeepsPairs(Initial(), actions);
  }

  /** Without the one-pending-at-a-time discipline, two human messages can follow each other. */
  lemma OverlappingSendsBreakPairs(s: ChatState, first: string, second: string)
    requires s.query == "" && first != "" && second != "" && first != second
    ensures var pending := Submitted(Sent(Typed(s, first))).state;
      var both := Submitted(Sent(Typed(pending, second))).state;
      both.log == s.log + [HumanMessage(first), HumanMessage(second)]
  {
  }

  /** Clearing while a request is pending leaves the log holding its reply alone. */
  lemma ClearWhilePending(s: ChatState, reply: ChatReply)
    ensures Settled(Cleared(s), reply).log == [AiMessage(reply)]
  {
  }

  /** Sending "hello" without a category, answered "hi" with no sources. */
  lemma HelloExchange()
    ensures Submitted(Sent(Typed(Initial(), "hello"))).request ==
              Some(ChatRequest(None, [Message(HumanRole, "hello", None)]))
    ensures Exchange(Initial(), "hello", Envelope(true, Some(ChatBody("hi", Some([]))))).log ==
              [Message(HumanRole, "hello", None), Message(AiRole, "hi", Some([]))]
  {
    var sent := Sent(Typed(Initial(), "hello"));
    assert |"hello"| != 0 && sent.query == "hello" && sent.log == [];
    assert sent.log + [HumanMessage("hello")] == [Message(HumanRole, "hello", None)];
    ExchangeAppendsPair(Initial(), "hello", Envelope(true, Some(ChatBody("hi", Some([])))));
  }

  // ---------------------------------------------------------------------------------------------
  // Properties of the sources predicate.

  lemma FallbackHidesSources(reply: ChatReply)
    requires !(reply.Envelope? && reply.success && reply.body.Some?)
    ensures !ShowSources(AiMessage(reply))
  {
  }

  /** An answer containing the phrase, in any letter case, does not list its sources. */
  lemma NotFoundAnswerHidesSources(pre: string, phrase: string, post: string, role: string, sources: Option<seq<Entry>>)
    ensures Lower(phrase) == Lower(NotFoundPhrase) ==> !ShowSources(Message(role, pre + phrase + post, sources))
  {
    if Lower(phrase) == Lower(NotFoundPhrase) {
      LowerConcat(pre + phrase, post);
      LowerConcat(pre, phrase);
      LiteralOccurrenceMatches(Lower(pre), Lower(NotFoundPhrase), Lower(post));
    }
  }

  /**
   * The phrase's `.` matches any single UTF-16 code unit but a line terminator, given that the
   * lowered text has that unit there: U+0130 lowers to two units in JavaScript, so it is excluded.
   */
  lemma PhraseDotIsWildcard(c: char, role: string, sources: Option<seq<Entry>>)
    requires !IsLineTerminator(c) && c as int < 0x1_0000 && c != '\U{0130}'
    ensures !ShowSources(Message(role, NotFoundPhrase[49 := c], sources))
  {
    assert NotFoundPhrase[49] == '.';
    WildcardMatchesAnyCharacter(NotFoundPhrase, 49, c);
  }

  /** Any answer with sources that does not match the phrase lists them. */
  lemma OtherAnswersShowSources(m: Message)
    requires m.sources.Some? && |m.sources.value| > 0
    ensures !ContainsMatch(Lower(m.content), Lower(NotFoundPhrase)) ==> ShowSources(m)
  {
  }

  // ---------------------------------------------------------------------------------------------
  // The component. React calls the handlers on user events, SubmitEffect after every render in
  // which `searchQuery` changed, and OnSettled when the posted request settles.

  class ChatPage {
    var chatLog: seq<Message>
    var searchQuery: string
    var chatboxInput: string
    var categorySelected: Option<Category>

    function State(): ChatState
      reads this
    {
      ChatState(chatLog, searchQuery, chatboxInput, categorySelected)
    }

    constructor ()
      ensures State() == Initial()
    {
      chatLog := [];
      searchQuery := "";
      chatboxInput := "";
      categorySelected := None;
    }

    method OnInputChange(text: string)
      modifies this
      ensures State() == Typed(old(State()), text)
    {
      chatboxInput := text;
    }

    method OnSendClick()
      modifies this
      ensures State() == Sent(old(State()))
    {
      if |chatboxInput| == 0 {
        return;
      }
      searchQuery := chatboxInput;
    }

    method SubmitEffect() returns (request: Option<ChatRequest>)
      modifies this
      ensures Submission(State(), request) == Submitted(old(State()))
    {
      if |searchQuery| == 0 {
        return None;
      }
      var human := HumanMessage(chatboxInput);
      request := Some(ChatRequest(categorySelected, chatLog + [human]));
      chatLog := chatLog + [human];
      chatboxInput := "";
    }

    method OnSettled(reply: ChatReply)
      modifies this
      ensures State() == Settled(old(State()), reply)
    {
      chatLog := chatLog + [AiMessage(reply)];
      searchQuery := "";
    }

    method OnClearClick()
      modifies this
      ensures State() == Cleared(old(State()))
    {
      chatLog := [];
    }

    method OnCategoryChange(c: Option<Category>)
      modifies this
      ensures State() == CategoryChanged(old(State()), c)
    {
      categorySelected := c;
    }
  }
}
