/** An older chat screen (topic pills above the transcript): no persistence, no email dialog,
    no reply-field fallback, no error classification; switching topic keeps the conversation. */
module NewInterface {
  import opened Wrappers
  import opened JsText
  import opened Chat

  datatype State = State(messages: seq<Message>, input: string, isLoading: bool, activeTopic: Topic)

  const Initial := State([], "", false, General)

  /** Send, first phase: unless the input is blank or a send is in flight, append the user's
      message with the untrimmed text, clear the input, raise the loading flag, and post
      `{message}` to the active topic's endpoint. */
  function BeginSend(s: State, now: string): (r: Begun<State>)
    ensures !(!Blank(s.input) && !s.isLoading) ==> r == Begun(s, Skipped)
    ensures !Blank(s.input) && !s.isLoading ==>
              && r.state == State(s.messages + [UserMessage(s.input, now)], "", true, s.activeTopic)
              && r.dispatch == Posted(ChatRequest(TopicPath(s.activeTopic), s.input, None, None))
  {
    MaySendIff(s.input, s.isLoading);
    if !MaySend(s.input, s.isLoading) then Begun(s, Skipped)
    else Begun(State(s.messages + [UserMessage(s.input, now)], "", true, s.activeTopic),
               Posted(PlainRequest(s.activeTopic, s.input)))
  }

  /** Send, second phase: append one bot message to the current list and drop the loading flag;
      the input and topic are left as they are. */
  function CompleteSend(s: State, o: Outcome, now: string): (r: State)
    ensures |r.messages| == |s.messages| + 1 && r.messages[..|s.messages|] == s.messages
    ensures r.messages[|s.messages|] == Message(PlainBotText(o), Bot, now)
    ensures !r.isLoading && r.input == s.input && r.activeTopic == s.activeTopic
  {
    s.(messages := s.messages + [BotMessage(PlainBotText(o), now)], isLoading := false)
  }

  /** From an idle screen one run of the handler adds exactly the user's message and then the
      bot's; on success the bot text is the `reply` field, on any failure the one fixed apology. */
  lemma FullCycle(s: State, now: string, o: Outcome, later: string)
    requires !Blank(s.input) && !s.isLoading
    ensures var r := CompleteSend(BeginSend(s, now).state, o, later);
            && |r.messages| == |s.messages| + 2 && r.messages[..|s.messages|] == s.messages
            && r.messages[|s.messages|] == UserMessage(s.input, now)
            && r.messages[|s.messages| + 1].sender == Bot
            && (o.Ok? ==> r.messages[|s.messages| + 1].text == o.reply)
            && (!o.Ok? ==> r.messages[|s.messages| + 1].text == Some(TroubleConnecting))
            && r.input == "" && !r.isLoading
  {
  }

  /** Blank input, or any input while a send is in flight, changes nothing and posts nothing. */
  lemma GuardedSendIsNoop(s: State, now: string)
    requires Blank(s.input) || s.isLoading
    ensures BeginSend(s, now) == Begun(s, Skipped)
  {
  }

  /** A topic pill: activate the topic; the conversation and the input stay. */
  function SelectTopic(s: State, t: Topic): (r: State)
    ensures r.activeTopic == t
    ensures r.messages == s.messages && r.input == s.input && r.isLoading == s.isLoading
  {
    s.(activeTopic := t)
  }

  /** Switching topic twice in a row is the same as switching once to the later topic, and
      switching never loses a message. */
  lemma SelectTopicLastWins(s: State, t: Topic, u: Topic)
    ensures SelectTopic(SelectTopic(s, t), u) == SelectTopic(s, u)
    ensures SelectTopic(s, t).messages == s.messages
  {
  }

  /** A suggested question only fills the input; it neither sends nor touches the transcript. */
  function PickSuggestion(s: State, question: string): (r: State)
    ensures r.input == question
    ensures r.messages == s.messages && r.isLoading == s.isLoading && r.activeTopic == s.activeTopic
  {
    s.(input := question)
  }

  /** Picking a suggestion and then sending is a send of the suggestion's text. */
  lemma SuggestionThenSend(s: State, question: string, now: string)
    requires !Blank(question) && !s.isLoading
    ensures BeginSend(PickSuggestion(s, question), now).dispatch
         == Posted(ChatRequest(TopicPath(s.activeTopic), question, None, None))
  {
  }

  /** What can happen to the screen: the user types, picks a suggestion, sends or switches topic,
      or a posted request settles. */
  datatype Event =
    | Type(text: string)
    | Suggest(question: string)
    | Submit(now: string)
    | Settle(outcome: Outcome, now: string)
    | PickTopic(topic: Topic)

  function Apply(s: State, e: Event): State {
    match e
    case Type(text) => s.(input := text)
    case Suggest(q) => PickSuggestion(s, q)
    case Submit(now) => BeginSend(s, now).state
    case Settle(o, now) => CompleteSend(s, o, now)
    case PickTopic(t) => SelectTopic(s, t)
  }

  /** No handler of this screen removes or rewrites a message. */
  lemma ApplyKeepsHistory(s: State, e: Event)
    ensures var r := Apply(s, e);
            |s.messages| <= |r.messages| && r.messages[..|s.messages|] == s.messages
  {
  }

  /** The screen after a sequence of events: the transcript only ever grows, and earlier
      messages are never lost or changed, whatever the topic switches in between. */
  function Run(s: State, es: seq<Event>): (r: State)
    ensures |s.messages| <= |r.messages| && r.messages[..|s.messages|] == s.messages
    decreases |es|
  {
    if es == [] then s
    else
      ApplyKeepsHistory(s, es[0]);
      var r := Run(Apply(s, es[0]), es[1..]);
      assert r.messages[..|s.messages|] == r.messages[..|Apply(s, es[0]).messages|][..|s.messages|];
      r
  }
}
