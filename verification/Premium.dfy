/** The premium chat screen: no persistence, no reply-field fallback and no error
    classification; switching topic keeps the conversation; a suggested question only fills the
    input. The email dialog is the shared one. */
module Premium {
  import opened Wrappers
  import opened JsText
  import opened Chat
  import Mail

  datatype State = State(
    messages: seq<Message>,
    input: string,
    isLoading: bool,
    activeTopic: Topic,
    sidebarOpen: bool,
    mail: Mail.Draft)

  /** The state the screen mounts with: nothing is read from storage. */
  const Initial := State([], "", false, General, false, Mail.Initial)

  /** Send, first phase: unless the input is blank or a send is in flight, append the user's
      message with the untrimmed text, clear the input, raise the loading flag, and post
      `{message}` to the active topic's endpoint. */
  function BeginSend(s: State, now: string): (r: Begun<State>)
    ensures !(!Blank(s.input) && !s.isLoading) ==> r == Begun(s, Skipped)
    ensures !Blank(s.input) && !s.isLoading ==>
              && r.state == s.(messages := s.messages + [UserMessage(s.input, now)], input := "",
                               isLoading := true)
              && r.dispatch == Posted(ChatRequest(TopicPath(s.activeTopic), s.input, None, None))
  {
    MaySendIff(s.input, s.isLoading);
    if !MaySend(s.input, s.isLoading) then Begun(s, Skipped)
    else Begun(s.(messages := s.messages + [UserMessage(s.input, now)], input := "", isLoading := true),
               Posted(PlainRequest(s.activeTopic, s.input)))
  }

  /** Send, second phase: append one bot message to the current list and drop the loading flag. */
  function CompleteSend(s: State, o: Outcome, now: string): (r: State)
    ensures r.messages == s.messages + [BotMessage(PlainBotText(o), now)]
    ensures !r.isLoading
    ensures r == s.(messages := r.messages, isLoading := false)
  {
    s.(messages := s.messages + [BotMessage(PlainBotText(o), now)], isLoading := false)
  }

  /** The bot text is the `reply` field itself: a reply body without it stores an undefined text,
      and the body's `message` field is never consulted. All failures read the same. */
  lemma BotTextCases(reply: Option<string>, m1: Option<string>, m2: Option<string>, f1: Outcome, f2: Outcome)
    requires !f1.Ok? && !f2.Ok?
    ensures PlainBotText(Ok(reply, m1)) == reply == PlainBotText(Ok(reply, m2))
    ensures PlainBotText(f1) == PlainBotText(f2) == Some(TroubleConnecting)
  {
  }

  /** One uninterrupted run of the handler from an idle screen adds the user's message and then
      the bot's, in that order, and leaves the screen idle. */
  lemma FullCycle(s: State, now: string, o: Outcome, later: string)
    requires !Blank(s.input) && !s.isLoading
    ensures var r := CompleteSend(BeginSend(s, now).state, o, later);
            && r.messages == s.messages + [UserMessage(s.input, now), BotMessage(PlainBotText(o), later)]
            && r.input == "" && !r.isLoading && r.activeTopic == s.activeTopic
  {
  }

  /** A second send while the first is in flight adds nothing and posts nothing. */
  lemma ReentrantSendIgnored(s: State, now: string, text: string, later: string)
    requires !Blank(s.input) && !s.isLoading
    ensures var b := BeginSend(s, now).state;
            var b2 := BeginSend(b.(input := text), later);
            b2.dispatch == Skipped && b2.state.messages == b.messages
  {
  }

  /** A topic button: activate the topic and close the sidebar; the conversation and the input
      stay. */
  function SelectTopic(s: State, t: Topic): (r: State)
    ensures r.activeTopic == t && !r.sidebarOpen
    ensures r.messages == s.messages && r.input == s.input && r.isLoading == s.isLoading
    ensures r.mail == s.mail
  {
    s.(activeTopic := t, sidebarOpen := false)
  }

  /** After a topic switch, the next send goes to the new topic's endpoint and the old
      conversation is still in front of it. */
  lemma TopicSwitchKeepsHistory(s: State, t: Topic, now: string)
    requires !Blank(s.input) && !s.isLoading
    ensures var b := BeginSend(SelectTopic(s, t), now);
            && b.dispatch.request.path == TopicPath(t)
            && b.state.messages[..|s.messages|] == s.messages
  {
  }

  /** A suggested question only fills the input; it neither sends nor touches the transcript. */
  function PickSuggestion(s: State, question: string): (r: State)
    ensures r.input == question
    ensures r.messages == s.messages && r.isLoading == s.isLoading && r.activeTopic == s.activeTopic
    ensures r.mail == s.mail && r.sidebarOpen == s.sidebarOpen
  {
    s.(input := question)
  }

  /** Picking a suggestion and then sending posts exactly the suggestion's text to the active
      topic, after the conversation so far. */
  lemma SuggestionThenSend(s: State, question: string, now: string)
    requires !Blank(question) && !s.isLoading
    ensures var b := BeginSend(PickSuggestion(s, question), now);
            && b.dispatch == Posted(ChatRequest(TopicPath(s.activeTopic), question, None, None))
            && b.state.messages == s.messages + [UserMessage(question, now)]
  {
  }

  datatype Event =
    | Type(text: string)
    | Suggest(question: string)
    | Submit(now: string)
    | Settle(outcome: Outcome, now: string)
    | PickTopic(topic: Topic)
    | ToggleSidebar(open: bool)
    | OpenEmail(selected: Option<string>)
    | CloseEmail
    | TypeEmail(address: string)
    | SubmitEmail
    | SettleEmail(delivered: bool)

  function Apply(s: State, e: Event): State {
    match e
    case Type(text) => s.(input := text)
    case Suggest(q) => PickSuggestion(s, q)
    case Submit(now) => BeginSend(s, now).state
    case Settle(o, now) => CompleteSend(s, o, now)
    case PickTopic(t) => SelectTopic(s, t)
    case ToggleSidebar(open) => s.(sidebarOpen := open)
    case OpenEmail(text) => s.(mail := Mail.Open(s.mail, text))
    case CloseEmail => s.(mail := Mail.Close(s.mail))
    case TypeEmail(v) => s.(mail := Mail.ChangeAddress(s.mail, v))
    case SubmitEmail => s.(mail := Mail.BeginSubmit(s.mail).draft)
    case SettleEmail(delivered) => s.(mail := Mail.CompleteSubmitAsWritten(s.mail, delivered))
  }

  /** No handler of this screen removes or rewrites a message, and each keeps the email flag in
      agreement with the address, except on a field emptied by a delivery. */
  lemma ApplyKeepsHistory(s: State, e: Event)
    requires Mail.Sound(s.mail)
    ensures var r := Apply(s, e);
            Mail.Sound(r.mail) && |s.messages| <= |r.messages| && r.messages[..|s.messages|] == s.messages
  {
    match e
    case OpenEmail(text) => Mail.AsWrittenHandlersKeepSound(s.mail, text, "", false);
    case TypeEmail(v) => Mail.AsWrittenHandlersKeepSound(s.mail, None, v, false);
    case SettleEmail(d) => Mail.AsWrittenHandlersKeepSound(s.mail, None, "", d);
    case _ => Mail.AsWrittenHandlersKeepSound(s.mail, None, "", false);
  }

  /** The screen after a sequence of events. The email flag describes the typed address unless a
      delivery has emptied the field, and the transcript only ever grows: earlier messages are
      never lost or changed. */
  function Run(s: State, es: seq<Event>): (r: State)
    requires Mail.Sound(s.mail)
    ensures Mail.Sound(r.mail)
    ensures |s.messages| <= |r.messages| && r.messages[..|s.messages|] == s.messages
    decreases |es|
  {
    if es == [] then s
    else
      ApplyKeepsHistory(s, es[0]);
      var r := Run(Apply(s, es[0]), es[1..]);
      assert r.messages[..|s.messages|] == r.messages[..|Apply(s, es[0]).messages|][..|s.messages|];
      r
  }
}
