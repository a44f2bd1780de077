# PilBot chat-session controller in Dafny

This project models the conversation controller of the PilBot chat client: the state a chat screen
keeps (`messages`, `input`, `isLoading`, `activeTopic`, plus the "email this response" dialog)
and the handlers that change it. Each handler is a pure transition on an immutable state record.
The network is an input: a send is split into a first phase (guard, optimistic append,
dispatch) and a second phase that takes an abstract `Outcome` (`Ok(reply, message)`,
`HttpStatus(n)`, `NoResponse`, `Other`).

Three screens are modelled, each in its own module:

- `Nebula` is the screen routed at `/`. It rehydrates the transcript and topic from session
  storage and falls back from `reply` to `message` to a fixed text. It classifies failures as 422,
  500, no response or other. Switching topic empties the transcript, and "New Chat" empties
  the transcript and the input and returns to the general topic.
- `Premium` is an older screen with the same email dialog. It has no persistence and no
  classification. The bot text is `reply` as is, a topic switch keeps the conversation, and a
  suggested question only fills the input. Its initial state is `Premium.Initial`.
- `NewInterface` is another older screen (`ChatInterfaceNew.js`). It works like `Premium` but has
  no email dialog and no sidebar. Its initial state is `NewInterface.Initial`.

Shared pieces:

- `JsText` holds the JavaScript whitespace class `\s` and `String.prototype.trim`. The two cover
  the same characters.
- `EmailAddress` reads the regular expression `^[^\s@]+@[^\s@]+\.[^\s@]+$` as a decomposition
  `user@host.tld`. It also gives an executable check and proves the two agree.
- `Chat` holds messages, the topic/endpoint table, requests, outcomes and the send guard.
- `Mail` holds the email dialog, whose handlers are identical in `Nebula` and `Premium`.

Each screen also has an `Event` type and an `Apply`/`Run` interpreter, so invariants can be stated
over any sequence of user actions and settled requests.

Some of the code's behaviour is easy to assume otherwise. The model follows the code:

- Failures are classified by the exact statuses 422 and 500, not by the 4xx/5xx classes.
- In `Nebula`, selecting a topic does not clear the input.
- Cancelling the email dialog only hides it. The address and the selected message are kept.
- Unreadable text under the `chatMessages` storage key is passed to an unguarded `JSON.parse`.
  It does not fall back to an empty list.
- The two older screens keep the conversation when the topic changes.
- A successful email delivery clears the address but not its validity flag, and the screens' event
  interpreters use that completion as written. Their invariant is therefore `Mail.Sound`: the flag
  matches the address except on a field emptied by a delivery (see Findings).

## Model

| member | source | states |
|---|---|---|
| `JsText.TrimStart` | src/components/ChatInterfaceNebula.js:139 | the leading-trim result is a suffix of the input; everything dropped is whitespace; it does not start with whitespace |
| `JsText.TrimEnd` | src/components/ChatInterfaceNebula.js:139 | the trailing-trim result is a prefix of the input; everything dropped is whitespace; it does not end with whitespace |
| `JsText.TrimEmptyIffBlank` | src/components/ChatInterfaceNebula.js:139 | `input.trim()` is empty exactly when the input is whitespace only |
| `Chat.MaySendIff` | src/components/ChatInterfaceNebula.js:139 | the send guard passes iff the input has a non-whitespace character and no send is in flight |
| `Chat.FindTopic` | src/components/ChatInterfaceNebula.js:91 | `topics.find` returns the entry whose id is the given text, and none exists when it returns nothing |
| `Chat.TopicTable` | src/components/ChatInterfaceNew.js:16-49 | ids and endpoint paths are distinct per topic; looking up a topic's id finds it; navigation maps to `/chat/campus-nav` |
| `EmailAddress.ShapeImpliesPattern` | src/components/ChatInterfaceNebula.js:206 | every address the executable check accepts splits as user@host.tld with non-empty runs free of whitespace and `@` |
| `EmailAddress.PatternImpliesShape` | src/components/ChatInterfaceNebula.js:206 | every string in the regular expression's language is accepted by the executable check |
| `EmailAddress.ShapeIffPattern` | src/components/ChatInterfaceNebula.js:206 | the executable check and the regular expression's language coincide |
| `EmailAddress.FieldValidIff` | src/components/ChatInterfaceNebula.js:203-207 | the validity flag is true iff the field is empty or matches the pattern |
| `EmailAddress.NoAtIsInvalid` | src/components/ChatInterfaceNebula.js:206 | a non-empty entry without `@` is never flagged valid, so typing an address never shows a false valid state before the `@` |
| `EmailAddress.ExamplesValid` | src/components/ChatInterfaceNebula.js:206 | `a@b.co` and the empty field are valid |
| `EmailAddress.ExamplesInvalid` | src/components/ChatInterfaceNebula.js:206 | `no-at-sign`, `a@.co`, `a@b.`, `a b@c.de`, `a@b@c.de` are invalid |
| `Mail.Open` | src/components/ChatInterfaceNebula.js:229-232 | opening the dialog selects the message text and shows the dialog; the address, flag and sending state are kept |
| `Mail.Close` | src/components/ChatInterfaceNebula.js:645-651 | cancel hides the dialog and keeps the address and the selected message |
| `Mail.ChangeAddress` | src/components/ChatInterfaceNebula.js:203-207 | a keystroke stores the address and sets the flag iff it is empty or matches the pattern; the dialog is otherwise unchanged |
| `Mail.BeginSubmit` | src/components/ChatInterfaceNebula.js:209-218 | a request goes out iff the flag is set, the address is non-empty and a non-empty message is selected; it carries that message and address and raises `emailSending`; otherwise nothing changes |
| `Mail.SubmitGuardIff` | src/components/ChatInterfacePremium.js:133 | for every dialog the handlers can reach (flag consistent, or the field emptied), a submit goes out exactly when the address matches the pattern and a non-empty message is selected |
| `Mail.CompleteSubmitAsWritten` | src/components/ChatInterfaceNebula.js:219-226 | as written: on delivery the dialog closes and address and selection are cleared, with the flag untouched; on failure only `emailSending` drops |
| `Mail.StaleFlagAfterDelivery` | src/components/ChatInterfaceNebula.js:219-221 | an address edit during delivery followed by success leaves an empty field flagged invalid |
| `Mail.CompleteSubmit` | src/components/ChatInterfaceNebula.js:213-226 | corrected completion: delivery returns the dialog to its initial state; failure keeps the draft; `emailSending` ends false; consistency is preserved |
| `Mail.AsWrittenHandlersKeepSound` | src/components/ChatInterfacePremium.js:125-154 | the handlers as written, including the completion that leaves the flag alone, keep the flag equal to the validity of the typed address everywhere except on an emptied field |
| `Mail.HandlersKeepConsistent` | src/components/ChatInterfacePremium.js:125-154 | with the corrected completion (not the code's), every dialog handler keeps the flag equal to the validity of the typed address, so an empty field is never flagged invalid |
| `Mail.FailedSubmitRetriesSameRequest` | src/components/ChatInterfaceNebula.js:222-226 | after a failed delivery, submitting again posts the same request |
| `Nebula.Pick` | src/components/ChatInterfaceNebula.js:150 | the randomly chosen phrase is one of the pool's phrases |
| `Nebula.LoadMessages` | src/components/ChatInterfaceNebula.js:10-13 | an absent or empty key gives `[]`; a stored encoding gives back its list; only other non-empty text fails |
| `Nebula.LoadTopic` | src/components/ChatInterfaceNebula.js:16-19 | an absent or empty key gives `general`; otherwise the saved text; never empty |
| `Nebula.Rehydrate` | src/components/ChatInterfaceNebula.js:10-26 | mount yields the loaded transcript and topic with an idle input, a closed sidebar and the initial dialog state; an empty store yields `[]` and `general` |
| `Nebula.ReloadRestores` | src/components/ChatInterfaceNebula.js:102-108 | reloading from what the storage effects wrote gives back the same transcript and topic |
| `Nebula.BeginSend` | src/components/ChatInterfaceNebula.js:137-157 | blank input or a send in flight changes nothing and posts nothing; otherwise exactly one user message with the untrimmed text is appended, the input is cleared, loading is raised, and the text is posted to the topic's endpoint; an unknown topic throws before posting |
| `Nebula.ReplyText` | src/components/ChatInterfaceNebula.js:162 | the bot text is `reply` if truthy, else `message` if truthy, else the fixed fallback; never empty |
| `Nebula.FailureText` | src/components/ChatInterfaceNebula.js:167-181 | status 422 iff the rephrase text; status 500 iff the internal-error text; no response iff the cannot-reach text; everything else iff the generic text |
| `Nebula.CompleteSend` | src/components/ChatInterfaceNebula.js:159-193 | exactly one non-empty bot message is appended to the current list, its text chosen from the outcome; loading drops; nothing else changes |
| `Nebula.Send` | src/components/ChatInterfaceNebula.js:137-194 | an uninterrupted run adds exactly the user message and then one bot message and leaves the screen idle; for a topic in the table the bot text is the reply-fallback or classified failure text of the outcome; an unknown topic ends with the generic text |
| `Nebula.ReplyFollowsTopicSwitch` | src/components/ChatInterfaceNebula.js:159-160 | a reply arriving after a topic switch lands in the emptied transcript of the new topic as its only message |
| `Nebula.SelectTopic` | src/components/ChatInterfaceNebula.js:315-319 | the topic is set, the transcript emptied and the sidebar closed; the input, loading flag and dialog are untouched |
| `Nebula.SelectTopicForgetsHistory` | src/components/ChatInterfaceNebula.js:315-319 | the state after a topic switch does not depend on the prior transcript or topic |
| `Nebula.NewChat` | src/components/ChatInterfaceNebula.js:293-297 | transcript and input are emptied and the topic becomes `general`; loading flag, dialog and sidebar are untouched |
| `Nebula.NewChatIsGeneralTopicWithoutInput` | src/components/ChatInterfaceNebula.js:293-319 | New Chat equals pressing the general topic button and clearing the input, with the sidebar left as is |
| `Nebula.ApplyKeepsValid` | src/components/ChatInterfaceNebula.js:137-319 | every handler as written keeps the email flag consistent except on an emptied field, the topic non-empty and the greeting from its pool |
| `Nebula.Run` | src/components/ChatInterfaceNebula.js:137-319 | after any sequence of handler calls and settled requests the screen's invariant still holds |
| `Nebula.SubmittedAddressMatches` | src/components/ChatInterfaceNebula.js:209-218 | whatever happened since mount, an email request only goes out to an address matching the pattern, with a non-empty message |
| `Nebula.SessionSurvivesReload` | src/components/ChatInterfaceNebula.js:101-108 | whatever happened since mount, a reload restores the same transcript and topic |
| `Premium.BeginSend` | src/components/ChatInterfacePremium.js:82-95 | blank input or a send in flight is a no-op; otherwise one user message is appended, the input cleared, loading raised, and `{message}` posted to the topic's endpoint |
| `Premium.CompleteSend` | src/components/ChatInterfacePremium.js:96-115 | one bot message with the `reply` field or the fixed apology is appended to the current list; loading drops; nothing else changes |
| `Premium.BotTextCases` | src/components/ChatInterfacePremium.js:101-112 | the bot text is the `reply` field with no fallback, the `message` field is ignored, and every failure gives the same apology |
| `Premium.FullCycle` | src/components/ChatInterfacePremium.js:82-116 | a run from idle appends the user message then the bot message, in that order, and ends idle |
| `Premium.ReentrantSendIgnored` | src/components/ChatInterfacePremium.js:84 | a second send while one is in flight adds no message and posts nothing |
| `Premium.SelectTopic` | src/components/ChatInterfacePremium.js:223-226 | only the topic changes and the sidebar closes; transcript, input, loading and dialog stay |
| `Premium.TopicSwitchKeepsHistory` | src/components/ChatInterfacePremium.js:223-226 | after a switch the next send posts to the new topic's endpoint with the old conversation still in place |
| `Premium.PickSuggestion` | src/components/ChatInterfacePremium.js:342 | a suggested question sets the input only; nothing is sent |
| `Premium.SuggestionThenSend` | src/components/ChatInterfacePremium.js:342 | picking a suggestion and then sending appends and posts exactly the suggestion's text |
| `Premium.ApplyKeepsHistory` | src/components/ChatInterfacePremium.js:82-226 | no handler removes or rewrites a message; each, as written, keeps the email flag consistent except on an emptied field |
| `Premium.Run` | src/components/ChatInterfacePremium.js:82-226 | over any sequence of events the transcript only grows and the email flag stays consistent except on an emptied field |
| `NewInterface.BeginSend` | src/components/ChatInterfaceNew.js:69-86 | blank input or a send in flight is a no-op; otherwise one user message with the untrimmed text is appended, the input cleared, loading raised, and `{message}` posted |
| `NewInterface.CompleteSend` | src/components/ChatInterfaceNew.js:88-102 | one bot message is appended after the current list; loading drops; input and topic stay |
| `NewInterface.FullCycle` | src/components/ChatInterfaceNew.js:69-103 | a run from idle appends the user message then the bot message; the bot text is `reply` on success and the fixed apology on any failure |
| `NewInterface.GuardedSendIsNoop` | src/components/ChatInterfaceNew.js:71 | whitespace-only input or a send in flight changes nothing and posts nothing |
| `NewInterface.SelectTopic` | src/components/ChatInterfaceNew.js:161 | only the topic changes; the transcript is kept |
| `NewInterface.SelectTopicLastWins` | src/components/ChatInterfaceNew.js:161 | two switches equal one switch to the later topic, and no message is lost |
| `NewInterface.PickSuggestion` | src/components/ChatInterfaceNew.js:203 | a suggested question sets the input only; nothing is sent |
| `NewInterface.SuggestionThenSend` | src/components/ChatInterfaceNew.js:203 | picking a suggestion and then sending posts exactly the suggestion's text |
| `NewInterface.ApplyKeepsHistory` | src/components/ChatInterfaceNew.js:69-203 | no handler of this screen (typing, suggestion, send, settled reply, topic pill) removes or rewrites a message |
| `NewInterface.Run` | src/components/ChatInterfaceNew.js:69-203 | after any sequence of handler calls and settled requests the earlier transcript is kept as a prefix |

## Left out

- Rendering, animations, scroll-to-bottom and textarea auto-resize are not modelled. They are presentation only.
- The HTTP client (axios) is not modelled. Each request's result is an `Outcome` argument, and the API base URL is dropped from endpoint paths.
- Health polling (30-second interval, 5-second timeout, "Connected"/"Offline") is not modelled. It is timers and I/O and never touches the conversation.
- `Math.random` becomes a `roll` argument and `new Date().toISOString()` becomes a `now` argument.
- The quick-action and suggested-question buttons of the `Nebula` screen are not modelled. They schedule `handleSend` with `setTimeout`, and what that call sees depends on React's closure capture and scheduling.
- The clipboard "Copy" button is not modelled. It is a browser API with no effect on state.
- `Enter` without `Shift` in the textarea calls the same send handler. The `Submit` event stands for both.
- JSON encoding is not modelled: `Encoded(list)` stands for any text that `JSON.parse` turns into that message list (what `JSON.stringify(list)` writes, and equally `[ ]` or the same objects with reordered keys), and `RawText` for text it does not turn into a message list.
- Nebula.LoadMessages: reports any non-empty text under `chatMessages` that `JSON.parse` does not turn into a message list as a failure. The code hands it to an unguarded `JSON.parse`, which may throw or return a value that is not a message list; neither is followed further.
- Logging is not modelled: the `console.error` calls in the send and mail catch blocks (src/components/ChatInterfaceNebula.js:168, :223; src/components/ChatInterfacePremium.js:107, :145; src/components/ChatInterfaceNew.js:94) have no effect on state.
- React's batching and stale closures are not modelled. Handlers read the current state.
- Disabled controls are not modelled (the textarea and send button while loading, the submit button while sending). The handlers carry only their own guards.
- Mail.BeginSubmit: the `SubmitEmail` event stands for a call of `handleEmailSubmit`; the browser's own validation of the `<input type="email" required>` field (src/components/ChatInterfaceNebula.js:626-638, src/components/ChatInterfacePremium.js:508-522) is not modelled. That check runs before the form's `submit` fires and blocks some addresses the regular expression accepts, such as `a@b..c` (an empty domain label), so the model (and `Nebula.SubmittedAddressMatches`) lets requests out that the browser would stop.
- A `Nebula` screen rehydrated with a topic missing from the table never mounts: its header reads `currentTopic.icon` and `currentTopic.name` (src/components/ChatInterfaceNebula.js:371, :380) on the first render, which throws. The `Threw` dispatch of `Nebula.BeginSend` and the unknown-topic clause of `Nebula.Send` describe the handler alone and are unreachable in the program.
- JavaScript strings are UTF-16 code units, while Dafny `char` is a Unicode scalar value. The regular expression's character classes treat both alike.
- Response fields are modelled as strings or absent. Truthiness of numbers, objects or other non-string values is not modelled.
- Display texts are not modelled: suggested-question prompts, topic names, descriptions and icons.
- `src/App.js` routing, the admin panel and the Tailwind configuration are not part of this model.

## Findings

| source | as written | input that shows it | evidently intended | confidence | as-written member | corrected member |
|---|---|---|---|---|---|---|
| src/components/ChatInterfaceNebula.js:219-221 (same in src/components/ChatInterfacePremium.js:141-143) | a successful delivery clears `email` but leaves `isEmailValid` as it is, and the address field stays editable while sending | select "Hi", type `a@b.co`, submit; while it is in flight type `x`; delivery succeeds. The field is then empty but flagged invalid, so the dialog reopens with its error under an empty field | an empty field is never flagged invalid (the flag is reset along with the address) | medium, not executed | `Mail.CompleteSubmitAsWritten`, `Mail.StaleFlagAfterDelivery` | `Mail.CompleteSubmit` (consistency proved in `Mail.HandlersKeepConsistent`; the screens' `Apply` keeps the code's `Mail.CompleteSubmitAsWritten`) |
