/** The chat screen served at `/`: conversation state rehydrated from session storage, the
    two-phase send with reply-field fallback and error classification, topic switching, "New
    Chat", and the email dialog. Every handler is a pure transition on an immutable `State`. */
module Nebula {
  import opened Wrappers
  import opened JsText
  import opened EmailAddress
  import opened Chat
  import Mail

  datatype State = State(
    messages: seq<Message>,
    input: string,
    isLoading: bool,
    activeTopic: string,   // any text: it may come back from storage
    loadingPhrase: string,
    greeting: string,
    sidebarOpen: bool,
    mail: Mail.Draft)

  const Greetings: seq<string> := [
    "Hey! What can I help you with?",
    "Hi there! Ask me anything",
    "What's up? How can I help?",
    "Hey! What do you need?",
    "Hi! I'm here to help",
    "Hello! What brings you here?"]

  const LoadingPhrases: seq<string> := [
    "Getting your answer...",
    "Let me check that for you...",
    "Looking that up...",
    "One moment...",
    "Searching...",
    "Just a sec..."]

  const ReplyFallback := "I received your message but couldn't generate a proper response."
  const GenericFailure := "I'm having trouble connecting right now. Please try again."
  const RephraseFailure := "There was an issue with your request. Please try rephrasing your question."
  const InternalFailure := "I encountered an internal error. Please try again in a moment."
  const UnreachableFailure := "Cannot reach the server. Please check your connection."

  /** `pool[Math.floor(Math.random() * pool.length)]`, the random index given as `roll`. */
  function Pick(pool: seq<string>, roll: nat): (r: string)
    requires |pool| > 0
    ensures r in pool
  {
    pool[roll % |pool|]
  }

  // ---------------------------------------------------------------------------------------------
  // Session storage

  /** The text under the `chatMessages` key: either text that `JSON.parse` turns into a message
      list (represented by that list, whatever its spelling: `[]`, `[ ]` and reordered keys alike),
      or text that `JSON.parse` does NOT turn into a message list (`RawText("[ ]")`, for one, is not
      a value this slot may hold; that text is `Encoded([])`). */
  datatype Stored = Encoded(list: seq<Message>) | RawText(text: string)

  /** The two session-storage keys the screen reads and writes; `None` is an absent key. */
  datatype SessionStore = SessionStore(chatMessages: Option<Stored>, activeTopic: Option<string>)

  /** Non-empty text under `chatMessages` that is not an encoded message list goes straight into
      `JSON.parse`, which nothing guards; the model does not follow it further. */
  datatype LoadError = UnparsedMessages(text: string)

  const EmptyStore := SessionStore(None, None)

  /** `saved ? JSON.parse(saved) : []`. */
  function LoadMessages(slot: Option<Stored>): (r: Result<seq<Message>, LoadError>)
    ensures slot.None? ==> r == Success([])
    ensures slot == Some(RawText("")) ==> r == Success([])
    ensures (slot.Some? && slot.value.Encoded?) ==> r == Success(slot.value.list)
    ensures r.Failure? <==> slot.Some? && slot.value.RawText? && slot.value.text != ""
  {
    match slot
    case None => Success([])
    case Some(Encoded(list)) => Success(list)
    case Some(RawText(text)) => if text == "" then Success([]) else Failure(UnparsedMessages(text))
  }

  /** `saved || 'general'`. */
  function LoadTopic(slot: Option<string>): (r: string)
    ensures r != ""
    ensures slot.Some? && slot.value != "" ==> r == slot.value
    ensures slot.None? || slot == Some("") ==> r == TopicId(General)
  {
    if slot.Some? && slot.value != "" then slot.value else "general"
  }

  /** The state the screen mounts with. */
  function Rehydrate(store: SessionStore, roll: nat): (r: Result<State, LoadError>)
    ensures r.Success? <==> LoadMessages(store.chatMessages).Success?
    ensures r.Success? ==> && r.value.messages == LoadMessages(store.chatMessages).value
                           && r.value.activeTopic == LoadTopic(store.activeTopic)
                           && r.value.input == "" && !r.value.isLoading
                           && r.value.mail == Mail.Initial && !r.value.sidebarOpen
                           && r.value.greeting in Greetings
    ensures store == EmptyStore ==>
              r.Success? && r.value.messages == [] && r.value.activeTopic == TopicId(General)
  {
    match LoadMessages(store.chatMessages)
    case Failure(e) => Failure(e)
    case Success(list) =>
      Success(State(list, "", false, LoadTopic(store.activeTopic), "", Pick(Greetings, roll),
                    false, Mail.Initial))
  }

  /** What the storage effects leave behind once they have run after a change. */
  function Persist(s: State): SessionStore {
    SessionStore(Some(Encoded(s.messages)), Some(s.activeTopic))
  }

  /** Reloading the page within the session restores the transcript and topic exactly; the
      input, loading flag and dialog start afresh. */
  lemma ReloadRestores(s: State, roll: nat)
    requires s.activeTopic != ""
    ensures var r := Rehydrate(Persist(s), roll);
            && r.Success?
            && r.value.messages == s.messages && r.value.activeTopic == s.activeTopic
            && r.value.input == "" && !r.value.isLoading
  {
  }

  // ---------------------------------------------------------------------------------------------
  // Sending

  /** Send, first phase (`handleSend` up to the `await`): unless the input is blank or a send is
      in flight, append the user's message with the untrimmed text, clear the input, raise the
      loading flag, pick a loading phrase and post the text to the active topic's endpoint. An
      active topic that is not in the table makes `currentTopic.endpoint` throw inside the
      `try`, before anything is posted. */
  function BeginSend(s: State, now: string, roll: nat): (r: Begun<State>)
    ensures !(!Blank(s.input) && !s.isLoading) ==> r == Begun(s, Skipped)
    ensures !Blank(s.input) && !s.isLoading ==>
              && r.state.messages == s.messages + [UserMessage(s.input, now)]
              && r.state.input == "" && r.state.isLoading
              && r.state.loadingPhrase in LoadingPhrases
              && r.state.activeTopic == s.activeTopic && r.state.mail == s.mail
              && r.state.greeting == s.greeting && r.state.sidebarOpen == s.sidebarOpen
    ensures r.dispatch.Posted? <==> !Blank(s.input) && !s.isLoading && FindTopic(s.activeTopic).Some?
    ensures r.dispatch.Posted? ==>
              r.dispatch.request == ChatRequest(TopicPath(FindTopic(s.activeTopic).value), s.input,
                                                Some(""), Some(""))
    ensures r.dispatch.Threw? <==> !Blank(s.input) && !s.isLoading && FindTopic(s.activeTopic).None?
  {
    MaySendIff(s.input, s.isLoading);
    if !MaySend(s.input, s.isLoading) then Begun(s, Skipped)
    else
      var t := s.(messages := s.messages + [UserMessage(s.input, now)], input := "",
                  isLoading := true, loadingPhrase := Pick(LoadingPhrases, roll));
      match FindTopic(s.activeTopic)
      case None => Begun(t, Threw)
      case Some(topic) => Begun(t, Posted(ChatRequest(TopicPath(topic), s.input, Some(""), Some(""))))
  }

  /** `response.data.reply || response.data.message || <fallback>`. */
  function ReplyText(reply: Option<string>, message: Option<string>): (r: string)
    ensures r != ""
    ensures Truthy(reply) ==> r == reply.value
    ensures !Truthy(reply) && Truthy(message) ==> r == message.value
    ensures !Truthy(reply) && !Truthy(message) ==> r == ReplyFallback
  {
    if Truthy(reply) then reply.value
    else if Truthy(message) then message.value
    else ReplyFallback
  }

  /** The copy chosen in the `catch` block. Only the exact statuses 422 and 500 get their own
      text; a request that got no answer gets the connectivity text; everything else the generic
      one. */
  function FailureText(o: Outcome): (r: string)
    requires !o.Ok?
    ensures r == RephraseFailure <==> o == HttpStatus(422)
    ensures r == InternalFailure <==> o == HttpStatus(500)
    ensures r == UnreachableFailure <==> o == NoResponse
    ensures r == GenericFailure <==> o.Other? || (o.HttpStatus? && o.status != 422 && o.status != 500)
  {
    match o
    case HttpStatus(status) =>
      if status == 422 then RephraseFailure
      else if status == 500 then InternalFailure
      else GenericFailure
    case NoResponse => UnreachableFailure
    case Other => GenericFailure
  }

  function BotText(o: Outcome): string {
    if o.Ok? then ReplyText(o.reply, o.message) else FailureText(o)
  }

  /** Send, second phase (after the `await`, the `catch` and the `finally`): append exactly one
      bot message to whatever list is current by then, and drop the loading flag. Nothing else
      changes and nothing is thrown. */
  function CompleteSend(s: State, o: Outcome, now: string): (r: State)
    ensures |r.messages| == |s.messages| + 1 && r.messages[..|s.messages|] == s.messages
    ensures var m := r.messages[|s.messages|];
            m.sender == Bot && m.timestamp == now && m.text.Some? && m.text.value != ""
    ensures o.Ok? ==> r.messages[|s.messages|].text == Some(ReplyText(o.reply, o.message))
    ensures !o.Ok? ==> r.messages[|s.messages|].text == Some(FailureText(o))
    ensures !r.isLoading
    ensures r == s.(messages := r.messages, isLoading := false)
  {
    s.(messages := s.messages + [BotMessage(Some(BotText(o)), now)], isLoading := false)
  }

  /** The whole handler run without anything happening in between: a blank input or a send in
      flight leaves the state untouched; otherwise exactly two messages are added, the user's then
      the bot's, and the screen is idle again. A topic missing from the table always ends with the
      generic failure text, whatever the network would have said. */
  function Send(s: State, now: string, roll: nat, o: Outcome, later: string): (r: State)
    ensures !(!Blank(s.input) && !s.isLoading) ==> r == s
    ensures !Blank(s.input) && !s.isLoading ==>
              && |r.messages| == |s.messages| + 2
              && r.messages == s.messages + [UserMessage(s.input, now), BotMessage(r.messages[|s.messages| + 1].text, later)]
              && r.input == "" && !r.isLoading && r.activeTopic == s.activeTopic
    ensures !Blank(s.input) && !s.isLoading && FindTopic(s.activeTopic).Some? ==>
              r.messages[|s.messages| + 1].text == Some(BotText(o))
    ensures !Blank(s.input) && !s.isLoading && FindTopic(s.activeTopic).None? ==>
              r.messages[|s.messages| + 1].text == Some(GenericFailure)
  {
    var b := BeginSend(s, now, roll);
    assert !Blank(s.input) && !s.isLoading ==> b.state.messages == s.messages + [UserMessage(s.input, now)];
    match b.dispatch
    case Skipped => s
    case Threw =>
      var r := CompleteSend(b.state, Other, later);
      assert r.messages == b.state.messages + [BotMessage(Some(GenericFailure), later)];
      r
    case Posted(_) =>
      var r := CompleteSend(b.state, o, later);
      assert r.messages == b.state.messages + [BotMessage(Some(BotText(o)), later)];
      r
  }

  /** A reply does not go to the conversation that asked for it but to the current one: when the
      user switches topic while a send is in flight, the old question is gone and the answer is
      the only message of the new topic. */
  lemma ReplyFollowsTopicSwitch(s: State, now: string, roll: nat, t: Topic, o: Outcome, later: string)
    requires !Blank(s.input) && !s.isLoading
    ensures var r := CompleteSend(SelectTopic(BeginSend(s, now, roll).state, t), o, later);
            && r.activeTopic == TopicId(t) && |r.messages| == 1 && r.messages[0].sender == Bot
  {
  }

  // ---------------------------------------------------------------------------------------------
  // Topics, new chat, input

  /** A sidebar topic button: activate the topic, close the sidebar, and empty the transcript.
      The typed input and an in-flight send are left alone. */
  function SelectTopic(s: State, t: Topic): (r: State)
    ensures r.activeTopic == TopicId(t) && r.messages == [] && !r.sidebarOpen
    ensures r.input == s.input && r.isLoading == s.isLoading && r.mail == s.mail
    ensures r == s.(activeTopic := r.activeTopic, messages := [], sidebarOpen := false)
  {
    s.(activeTopic := TopicId(t), sidebarOpen := false, messages := [])
  }

  /** "New Chat": empty the transcript and the input and return to the general topic. */
  function NewChat(s: State): (r: State)
    ensures r.messages == [] && r.input == "" && r.activeTopic == TopicId(General)
    ensures r.isLoading == s.isLoading && r.mail == s.mail && r.sidebarOpen == s.sidebarOpen
  {
    s.(messages := [], input := "", activeTopic := "general")
  }

  /** "New Chat" is the general topic button plus a cleared input, except that it leaves the
      sidebar as it is. */
  lemma NewChatIsGeneralTopicWithoutInput(s: State)
    ensures NewChat(s) == SelectTopic(s, General).(input := "", sidebarOpen := s.sidebarOpen)
  {
  }

  /** Selecting a topic does not depend on the conversation it replaces: any two states that
      differ only in their transcript and topic agree after the same button is pressed. */
  lemma SelectTopicForgetsHistory(s: State, u: State, t: Topic)
    requires u == s.(messages := u.messages, activeTopic := u.activeTopic)
    ensures SelectTopic(s, t) == SelectTopic(u, t)
  {
  }

  // ---------------------------------------------------------------------------------------------
  // The screen as a whole

  /** One user action or one settled request. `Settle` completes the pending send; after a send
      whose dispatch `Threw`, the outcome to supply is `Other`. */
  datatype Event =
    | Type(text: string)
    | Submit(now: string, roll: nat)
    | Settle(outcome: Outcome, now: string)
    | PickTopic(topic: Topic)
    | StartNewChat
    | ToggleSidebar(open: bool)
    | OpenEmail(selected: Option<string>)
    | CloseEmail
    | TypeEmail(address: string)
    | SubmitEmail
    | SettleEmail(delivered: bool)

  function Apply(s: State, e: Event): State {
    match e
    case Type(text) => s.(input := text)
    case Submit(now, roll) => BeginSend(s, now, roll).state
    case Settle(o, now) => CompleteSend(s, o, now)
    case PickTopic(t) => SelectTopic(s, t)
    case StartNewChat => NewChat(s)
    case ToggleSidebar(open) => s.(sidebarOpen := open)
    case OpenEmail(text) => s.(mail := Mail.Open(s.mail, text))
    case CloseEmail => s.(mail := Mail.Close(s.mail))
    case TypeEmail(v) => s.(mail := Mail.ChangeAddress(s.mail, v))
    case SubmitEmail => s.(mail := Mail.BeginSubmit(s.mail).draft)
    case SettleEmail(delivered) => s.(mail := Mail.CompleteSubmitAsWritten(s.mail, delivered))
  }

  /** The screen's standing invariant: the email flag describes the typed address unless the
      field has been emptied by a delivery, and the active topic is never the empty string (so it
      survives a reload). */
  predicate Valid(s: State) {
    Mail.Sound(s.mail) && s.activeTopic != "" && s.greeting in Greetings
  }

  lemma ApplyKeepsValid(s: State, e: Event)
    requires Valid(s)
    ensures Valid(Apply(s, e))
  {
    match e
    case OpenEmail(text) => Mail.AsWrittenHandlersKeepSound(s.mail, text, "", false);
    case CloseEmail => Mail.AsWrittenHandlersKeepSound(s.mail, None, "", false);
    case TypeEmail(v) => Mail.AsWrittenHandlersKeepSound(s.mail, None, v, false);
    case SubmitEmail => Mail.AsWrittenHandlersKeepSound(s.mail, None, "", false);
    case SettleEmail(d) => Mail.AsWrittenHandlersKeepSound(s.mail, None, "", d);
    case _ =>
  }

  /** The screen after a sequence of events; from a valid state it stays valid throughout. */
  function Run(s: State, es: seq<Event>): (r: State)
    requires Valid(s)
    ensures Valid(r)
    decreases |es|
  {
    if es == [] then s
    else
      ApplyKeepsValid(s, es[0]);
      Run(Apply(s, es[0]), es[1..])
  }

  /** Whatever happened since mount, a reload within the session brings back the same transcript
      and topic. */
  lemma {:induction false} SessionSurvivesReload(store: SessionStore, roll: nat, es: seq<Event>, roll2: nat)
    requires Rehydrate(store, roll).Success?
    ensures var s := Run(Rehydrate(store, roll).value, es);
            var r := Rehydrate(Persist(s), roll2);
            r.Success? && r.value.messages == s.messages && r.value.activeTopic == s.activeTopic
  {
    var s := Run(Rehydrate(store, roll).value, es);
    ReloadRestores(s, roll2);
  }

  /** Whatever happened since mount, an email submit only goes out to an address of the form
      user@host.tld, with a non-empty message selected. */
  lemma {:induction false} SubmittedAddressMatches(store: SessionStore, roll: nat, es: seq<Event>)
    requires Rehydrate(store, roll).Success?
    ensures var s := Run(Rehydrate(store, roll).value, es);
            var b := Mail.BeginSubmit(s.mail);
            b.request.Some? ==> MatchesPattern(b.request.value.email) && b.request.value.message != ""
  {
    var s := Run(Rehydrate(store, roll).value, es);
    Mail.SubmitGuardIff(s.mail);
  }
}
