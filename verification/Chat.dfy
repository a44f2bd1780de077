/** What the three chat screens share: messages, the topic/endpoint table, the request sent to the
    chat endpoint, the abstract outcome of that request, and the send guard. */
module Chat {
  import opened Wrappers
  import opened JsText

  datatype Sender = User | Bot

  /** A transcript entry. `text` is `None` when the screen stored `undefined` (a reply object
      without a `reply` field in the older screens); `timestamp` is the ISO time string the
      screen read from the clock, supplied by the caller. */
  datatype Message = Message(text: Option<string>, sender: Sender, timestamp: string)

  /** The fixed topic set of the sidebar / topic pills. */
  datatype Topic = General | Academics | Navigation | Admissions

  const AllTopics: seq<Topic> := [General, Academics, Navigation, Admissions]

  /** The `id` of a topic entry. */
  function TopicId(t: Topic): string {
    match t
    case General => "general"
    case Academics => "academics"
    case Navigation => "navigation"
    case Admissions => "admissions"
  }

  /** The `endpoint` of a topic entry, relative to the build-time API base URL. */
  function TopicPath(t: Topic): string {
    match t
    case General => "/chat/general"
    case Academics => "/chat/academics"
    case Navigation => "/chat/campus-nav"
    case Admissions => "/chat/admissions"
  }

  /** `topics.find(t => t.id === id)`: the first table entry with that id. */
  function FindTopic(id: string): (r: Option<Topic>)
    ensures r.Some? ==> TopicId(r.value) == id
    ensures r.None? ==> forall t :: TopicId(t) != id
  {
    if id == "general" then Some(General)
    else if id == "academics" then Some(Academics)
    else if id == "navigation" then Some(Navigation)
    else if id == "admissions" then Some(Admissions)
    else None
  }

  /** The topic table is a bijection between ids and endpoints: looking up a topic's own id finds
      it, and distinct topics have distinct ids and distinct endpoint paths. */
  lemma TopicTable(t: Topic, u: Topic)
    ensures FindTopic(TopicId(t)) == Some(t)
    ensures t != u ==> TopicId(t) != TopicId(u) && TopicPath(t) != TopicPath(u)
    ensures TopicPath(Navigation) == "/chat/campus-nav"
    ensures t in AllTopics
  {
  }

  /** The body posted to a topic endpoint. The newest screen also sends `user_name` and `email`
      (always empty); the older ones send `message` alone, shown here as `None`. */
  datatype ChatRequest = ChatRequest(path: string, message: string,
                                     userName: Option<string>, email: Option<string>)

  /** What happened to a posted request.
      - `Ok`: a 2xx answer whose body's `reply` / `message` fields are given (absent = `None`);
      - `HttpStatus`: the server answered with a status the HTTP client rejects;
      - `NoResponse`: the request was sent but nothing came back;
      - `Other`: any other exception (for instance one thrown before the request was sent). */
  datatype Outcome = Ok(reply: Option<string>, message: Option<string>)
                   | HttpStatus(status: int)
                   | NoResponse
                   | Other

  /** What the first phase of a send did about the network. */
  datatype Dispatch = Skipped | Posted(request: ChatRequest) | Threw

  /** The result of the first phase of a send: the state after the synchronous updates and what
      was dispatched. */
  datatype Begun<S> = Begun(state: S, dispatch: Dispatch)

  /** `!input.trim() || isLoading` is false: the condition under which the send handler proceeds. */
  predicate MaySend(input: string, isLoading: bool) {
    Trim(input) != "" && !isLoading
  }

  /** A send proceeds exactly when no send is in flight and the input holds a non-whitespace
      character. */
  lemma MaySendIff(input: string, isLoading: bool)
    ensures MaySend(input, isLoading) <==> !Blank(input) && !isLoading
  {
    TrimEmptyIffBlank(input);
  }

  function UserMessage(input: string, now: string): Message {
    Message(Some(input), User, now)
  }

  function BotMessage(text: Option<string>, now: string): Message {
    Message(text, Bot, now)
  }

  /** The request the older screens post for `input` on topic `t`. */
  function PlainRequest(t: Topic, input: string): ChatRequest {
    ChatRequest(TopicPath(t), input, None, None)
  }

  const TroubleConnecting := "I'm having trouble connecting. Please try again."

  /** Bot text appended by the older screens when a send completes: `response.data.reply` as is
      (no fallback, so possibly undefined or empty) on success, one fixed apology on any failure. */
  function PlainBotText(o: Outcome): Option<string> {
    if o.Ok? then o.reply else Some(TroubleConnecting)
  }
}
