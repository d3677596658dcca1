# Goshawk Odoo voice agent, modelled in Dafny

The Odoo module `goshawk_odoo_voice_agent` adds a microphone button to the
Odoo systray. The user speaks or types a command. The browser turns
speech into a transcript and waits for a one-second pause. The button
then posts the text to the JSON route `/voice_agent/process_voice`. The
server asks a language model for a prompt and for JavaScript action
code. The button shows the prompt in its chat window and runs the code
through the `voice_agent` service, which also offers a few predefined
page actions (open the main menu, activate debug mode, open an app by
name, open settings).

This project models three pieces of that system and proves what each promises:

- **The button** (`VoiceAgentButton`).
  - `voice_session.dfy` (module `VoiceSession`) is its state machine: one function per handler over a `Session` value. `processVoiceInput` is split at its `await` into `Begin` and `Settle`. The debounce timer is a single slot holding the transcript it will process; its expiry is an explicit event.
  - `voice_button.dfy` (module `VoiceButton`) is the component itself: a class whose fields the handlers update in place. Each handler method is proved to make the move of the matching `VoiceSession` function and to keep the state invariant `Consistent`. The helpers `Respond` and `RunActionCode` are proved to make the move of their `VoiceSession` functions, and `AddMessage` to append exactly one message.
- **The service's actions** (`voiceAgentService`).
  - `actions.dfy` (module `Actions`) gives the effect of each action on a snapshot of the page. The snapshot holds the URL's search parameters, a log of clicks and navigations, the pending `openApp` retries, the code handed to `executeCode`, and the notifications.
  - `agent_service.dfy` (module `AgentService`) is the service as a class with those fields; each method is proved to match its `Actions` function.
  - `notifications.dfy` is the notification service: an append-only log.
- **The controller** (`VoiceAgentController.process_voice`).
  - `controller.dfy` (module `Controller`) is a pure function of the agent search, the two request arguments and the agent's two model-backed calls, each of which may raise.
  - `end_to_end.dfy` (module `EndToEnd`) connects the controller's result to the button's branch on `error`, `prompt` and `js_code`.

Supporting modules:

- `js_text.dfy`: JavaScript's `trim` (the exact ECMAScript whitespace and line-terminator set) and `toLowerCase`.
- `protocol.dfy`: the JSON values that cross the RPC, with JavaScript truthiness (Python's agrees on these values) and template-literal string conversion.
- `wrappers.dfy`: `Option`.

Outside collaborators become parameters:

- the page (lists of entries, whether the menu toggle or the apps button exists);
- the outcome of the RPC (`RpcOutcome`);
- the outcome of evaluating action code (`Evaluation`);
- the agent's `generate_prompt` and `execute_action` (functions returning `Returned(v)` or `Raised(message)`).

### Behaviour as written

The model follows the code as written, including these behaviours that a
reader might not expect:

- **Requests can overlap.** `processVoiceInput` sets `isProcessing` but never checks it. Nothing in the code limits requests to one at a time or queues a newer transcript, so a second request can be sent while the first is in flight (`TwoRequestsCanOverlap`). The model counts the requests in flight (`inFlight`).
- **Stopping does not cancel the timer.** `stopRecording` and `closeChat` leave a pending debounce timer armed, and the timer still sends its transcript (`StopDoesNotCancelTimer`).
- **A submitted transcript is sent twice.** Submitting a voice transcript by hand leaves its debounce timer armed, so the same text is sent again when the timer expires (`SubmittedTranscriptSentTwice`).
- **An empty error reads as success.** An exception whose `str()` is empty yields `{'error': ''}`, which the client treats as an answer: it appends an assistant message with an undefined prompt and adds no notification (`EmptyErrorReadsAsAnswer`).
- **The prompt ignores audio.** The controller accepts audio data without text, but it still generates the prompt from `text_input` (`AudioAloneReachesGeneration`).
- **`executeCode` returns nothing.** It always returns `undefined`, because the wrapper function returns nothing. Only its completes/throws outcome is modelled.

## Model

| member | source | states |
|---|---|---|
| JsText.Trim | goshawk_odoo_voice_agent/static/src/js/voice_agent_button.js:104 | the trimmed string is empty exactly when the input is whitespace only, and otherwise neither starts nor ends with whitespace |
| JsText.TrimKeepsMiddle | goshawk_odoo_voice_agent/static/src/js/voice_agent_button.js:169 | trim only removes whitespace: its result is a contiguous middle of the input between a blank head and a blank tail |
| JsText.TrimIdempotent | goshawk_odoo_voice_agent/static/src/js/voice_agent_button.js:169-171 | trimming the already-trimmed input of onSubmit changes nothing, so processVoiceInput sees exactly that input |
| JsText.Lower | goshawk_odoo_voice_agent/static/src/js/voice_agent_service.js:85 | lower-casing keeps the length, turns each ASCII capital into its small letter and keeps every other character |
| JsText.LowerIdempotent | goshawk_odoo_voice_agent/static/src/js/voice_agent_service.js:85 | lower-casing twice is lower-casing once |
| JsText.LowerEqualIffEqualIgnoringCase | goshawk_odoo_voice_agent/static/src/js/voice_agent_service.js:85 | two lower-cased strings are equal exactly when the strings are equal up to ASCII case, position by position |
| Notifications.NotificationService.Add | goshawk_odoo_voice_agent/static/src/js/voice_agent_service.js:34-37 | a notification is appended to the log and nothing else changes |
| Actions.Find | goshawk_odoo_voice_agent/static/src/js/voice_agent_service.js:84-86 | `find` returns the first position whose element satisfies the predicate, and none exactly when no element does |
| Actions.FindFirst | goshawk_odoo_voice_agent/static/src/js/voice_agent_service.js:83-86 | the first entry in document order that the selector selects and whose trimmed, lower-cased text equals the lower-cased name; none exactly when no entry matches |
| Actions.NameMatchesIgnoringCase | goshawk_odoo_voice_agent/static/src/js/voice_agent_service.js:84-86 | an entry matches exactly when its trimmed text equals the requested name up to ASCII case |
| Actions.FindFirstIgnoresCase | goshawk_odoo_voice_agent/static/src/js/voice_agent_service.js:84-86 | the lookup gives the same entry whatever the case of the requested name |
| Actions.RetryFindsOnlyFirstSearchHits | goshawk_odoo_voice_agent/static/src/js/voice_agent_service.js:95-96 | the retry searches dropdown items only, so on the same page it can only find what the first search would have found |
| Actions.Execute | goshawk_odoo_voice_agent/static/src/js/voice_agent_service.js:22-39 | the code is handed to evaluation; a throw adds exactly one danger notification, completion adds none; the page is untouched |
| Actions.OpenMainMenu | goshawk_odoo_voice_agent/static/src/js/voice_agent_service.js:49-59 | with a toggle, one click and no notification; without, one warning and no click |
| Actions.ActivateDebugMode | goshawk_odoo_voice_agent/static/src/js/voice_agent_service.js:64-75 | afterwards debug is set; when absent it becomes "1" and one navigation to the new URL follows; when present the URL and effects are unchanged and one info notification is added |
| Actions.DebugModeTwiceNavigatesOnce | goshawk_odoo_voice_agent/static/src/js/voice_agent_service.js:64-75 | a second call on the page the first navigated to adds only the already-active notification, so the two navigate at most once |
| Actions.OpenApp | goshawk_odoo_voice_agent/static/src/js/voice_agent_service.js:82-114 | a match is clicked with no notification; no match with an apps button clicks the button and arms one retry; no match without it adds exactly one not-found warning and clicks nothing |
| Actions.RetryOpenApp | goshawk_odoo_voice_agent/static/src/js/voice_agent_service.js:94-106 | the armed retry is consumed; it clicks the first matching dropdown item, or adds one not-found warning for that name |
| Actions.OpenAppThenRetry | goshawk_odoo_voice_agent/static/src/js/voice_agent_service.js:88-106 | a miss followed by its retry leaves nothing armed and adds exactly two effects or notifications in all; no warning exactly when the retry finds the app |
| AgentService.VoiceAgentService.constructor | goshawk_odoo_voice_agent/static/src/js/voice_agent_service.js:14-15 | the service starts with no effects, retries or evaluated code |
| AgentService.VoiceAgentService.ExecuteCode | goshawk_odoo_voice_agent/static/src/js/voice_agent_service.js:22-39 | rethrows exactly the evaluation's error, and updates the state as Actions.Execute says |
| AgentService.VoiceAgentService.OpenMainMenu | goshawk_odoo_voice_agent/static/src/js/voice_agent_service.js:49-59 | updates the state as Actions.OpenMainMenu says |
| AgentService.VoiceAgentService.ActivateDebugMode | goshawk_odoo_voice_agent/static/src/js/voice_agent_service.js:64-75 | updates the state as Actions.ActivateDebugMode says |
| AgentService.VoiceAgentService.OpenApp | goshawk_odoo_voice_agent/static/src/js/voice_agent_service.js:82-114 | updates the state as Actions.OpenApp says |
| AgentService.VoiceAgentService.RetryOpenApp | goshawk_odoo_voice_agent/static/src/js/voice_agent_service.js:94-106 | updates the state as Actions.RetryOpenApp says |
| AgentService.VoiceAgentService.OpenSettings | goshawk_odoo_voice_agent/static/src/js/voice_agent_service.js:119-121 | has exactly the effect of openApp("Settings") |
| AgentService.ActivateDebugModeTwice | goshawk_odoo_voice_agent/static/src/js/voice_agent_service.js:64-75 | two calls, the second after the first navigation has loaded, add at most one effect and leave debug set |
| Controller.ProcessVoice | goshawk_odoo_voice_agent/controllers/main.py:12-45 | exactly one of error and prompt; a search failure, a missing agent (checked first), missing input, or a raising call each give a single-key error result; success exactly when every step returned, with success true, the prompt from text_input and the code from the prompt |
| Controller.AudioAloneReachesGeneration | goshawk_odoo_voice_agent/controllers/main.py:29-33 | audio data alone passes the input check, and the prompt is generated from the falsy text_input |
| VoiceSession.StartRecording | goshawk_odoo_voice_agent/static/src/js/voice_agent_button.js:45-86 | unsupported: one warning, chat and recording unchanged (so not recording); supported: chat shown, recognizer created, recording |
| VoiceSession.StopRecording | goshawk_odoo_voice_agent/static/src/js/voice_agent_button.js:91-96 | with a recognizer recording stops, without one nothing changes; the recognizer and the pending timer are kept |
| VoiceSession.ToggleMicrophone | goshawk_odoo_voice_agent/static/src/js/voice_agent_button.js:34-40 | recording with a recognizer: stops, keeping the recognizer and the chat; not recording: starts, which when speech is unsupported adds one warning and leaves every flag unchanged, and otherwise records with the chat shown |
| VoiceSession.RecognitionEnded | goshawk_odoo_voice_agent/static/src/js/voice_agent_button.js:78-82 | recording is off afterwards and nothing else changes |
| VoiceSession.OnTranscript | goshawk_odoo_voice_agent/static/src/js/voice_agent_button.js:67-75 | the input box shows the transcript and the single timer slot now holds it, replacing any earlier one; no message or request, and the flags, chat and host are unchanged |
| VoiceSession.Enqueue | goshawk_odoo_voice_agent/static/src/js/voice_agent_button.js:108-116 | exactly one user message and one request with the text, input cleared, processing raised; the pending timer, recording flags, chat and host are unchanged |
| VoiceSession.Begin | goshawk_odoo_voice_agent/static/src/js/voice_agent_button.js:103-116 | a whitespace-only text changes nothing; any other text is enqueued |
| VoiceSession.FireTimer | goshawk_odoo_voice_agent/static/src/js/voice_agent_button.js:73-75 | the timer slot empties and the transcript it carried is processed |
| VoiceSession.RunCode | goshawk_odoo_voice_agent/static/src/js/voice_agent_button.js:124-134 | the code is evaluated; a throw adds the service's and the button's danger notifications and no message |
| VoiceSession.Respond | goshawk_odoo_voice_agent/static/src/js/voice_agent_button.js:113-141 | rejection: one notification only; error: one system message "Error: " + error and a notification, no code run; answer: one assistant message with the prompt, the code run only when truthy |
| VoiceSession.Settle | goshawk_odoo_voice_agent/static/src/js/voice_agent_button.js:113-144 | the per-outcome effects of Respond, processing is cleared and one request leaves flight on every outcome, and every field other than the messages, the host and those two is unchanged |
| VoiceSession.OnInputChange | goshawk_odoo_voice_agent/static/src/js/voice_agent_button.js:180-182 | only the input box changes, to the new value |
| VoiceSession.OnSubmit | goshawk_odoo_voice_agent/static/src/js/voice_agent_button.js:167-173 | a blank input box changes nothing; otherwise exactly the Enqueue of its trimmed text: one user message and one request, with the timer, flags, chat and host unchanged |
| VoiceSession.ToggleChat | goshawk_odoo_voice_agent/static/src/js/voice_agent_button.js:187-189 | only chat visibility changes, and it flips |
| VoiceSession.CloseChat | goshawk_odoo_voice_agent/static/src/js/voice_agent_button.js:194-197 | the chat is hidden, recording stops if a recognizer exists, and the recognizer and the pending timer are kept |
| VoiceSession.StepConsistent | goshawk_odoo_voice_agent/static/src/js/voice_agent_button.js:34-197 | every event keeps the invariant: processing implies a request in flight, recording implies a recognizer, and the user messages are exactly the requests sent |
| VoiceSession.RunConsistent | goshawk_odoo_voice_agent/static/src/js/voice_agent_button.js:34-197 | the invariant holds after any sequence of events |
| VoiceSession.StepGrowsLogs | goshawk_odoo_voice_agent/static/src/js/voice_agent_button.js:34-197 | every event only appends to the messages, requests, notifications and evaluated code |
| VoiceSession.RunGrowsLogs | goshawk_odoo_voice_agent/static/src/js/voice_agent_button.js:34-197 | messages only ever grow, over any sequence of events |
| VoiceSession.DebounceKeepsLast | goshawk_odoo_voice_agent/static/src/js/voice_agent_button.js:67-75 | after a burst of transcripts one timer is pending with the last one, nothing is sent, and its expiry processes that transcript only |
| VoiceSession.TwoRequestsCanOverlap | goshawk_odoo_voice_agent/static/src/js/voice_agent_button.js:112 | nothing checks isProcessing: two non-blank inputs put two requests in flight |
| VoiceSession.StopDoesNotCancelTimer | goshawk_odoo_voice_agent/static/src/js/voice_agent_button.js:91-96 | a transcript that arrived before stop is still sent when its timer expires |
| VoiceSession.SubmittedTranscriptSentTwice | goshawk_odoo_voice_agent/static/src/js/voice_agent_button.js:67-75 | a transcript submitted by hand before its timer expires is sent, and logged as a user message, twice |
| VoiceButton.VoiceAgentButton.constructor | goshawk_odoo_voice_agent/static/src/js/voice_agent_button.js:8-29 | the initial state: nothing recording or processing, chat hidden, empty input, no timer, no messages |
| VoiceButton.VoiceAgentButton.ToggleMicrophone | goshawk_odoo_voice_agent/static/src/js/voice_agent_button.js:34-40 | keeps the invariant and updates the state as VoiceSession.ToggleMicrophone says |
| VoiceButton.VoiceAgentButton.StartRecording | goshawk_odoo_voice_agent/static/src/js/voice_agent_button.js:45-86 | keeps the invariant and updates the state as VoiceSession.StartRecording says |
| VoiceButton.VoiceAgentButton.StopRecording | goshawk_odoo_voice_agent/static/src/js/voice_agent_button.js:91-96 | keeps the invariant and updates the state as VoiceSession.StopRecording says |
| VoiceButton.VoiceAgentButton.OnRecognitionEnd | goshawk_odoo_voice_agent/static/src/js/voice_agent_button.js:78-82 | keeps the invariant and updates the state as VoiceSession.RecognitionEnded says |
| VoiceButton.VoiceAgentButton.OnResult | goshawk_odoo_voice_agent/static/src/js/voice_agent_button.js:67-75 | keeps the invariant and updates the state as VoiceSession.OnTranscript says |
| VoiceButton.VoiceAgentButton.OnTimeout | goshawk_odoo_voice_agent/static/src/js/voice_agent_button.js:73-75 | keeps the invariant and updates the state as VoiceSession.FireTimer says |
| VoiceButton.VoiceAgentButton.ProcessVoiceInput | goshawk_odoo_voice_agent/static/src/js/voice_agent_button.js:103-116 | keeps the invariant and updates the state as VoiceSession.Begin says |
| VoiceButton.VoiceAgentButton.SendRequest | goshawk_odoo_voice_agent/static/src/js/voice_agent_button.js:108-116 | keeps the invariant and updates the state as VoiceSession.Enqueue says |
| VoiceButton.VoiceAgentButton.OnRpcSettled | goshawk_odoo_voice_agent/static/src/js/voice_agent_button.js:113-144 | keeps the invariant and updates the state as VoiceSession.Settle says |
| VoiceButton.VoiceAgentButton.Respond | goshawk_odoo_voice_agent/static/src/js/voice_agent_button.js:118-141 | updates the state as VoiceSession.Respond says |
| VoiceButton.VoiceAgentButton.RunActionCode | goshawk_odoo_voice_agent/static/src/js/voice_agent_button.js:124-134 | updates the state as VoiceSession.RunCode says |
| VoiceButton.VoiceAgentButton.AddMessage | goshawk_odoo_voice_agent/static/src/js/voice_agent_button.js:153-160 | appends exactly one message with the given role and content |
| VoiceButton.VoiceAgentButton.OnSubmit | goshawk_odoo_voice_agent/static/src/js/voice_agent_button.js:167-173 | keeps the invariant and updates the state as VoiceSession.OnSubmit says |
| VoiceButton.VoiceAgentButton.OnInputChange | goshawk_odoo_voice_agent/static/src/js/voice_agent_button.js:180-182 | keeps the invariant and updates the state as VoiceSession.OnInputChange says |
| VoiceButton.VoiceAgentButton.ToggleChat | goshawk_odoo_voice_agent/static/src/js/voice_agent_button.js:187-189 | keeps the invariant and updates the state as VoiceSession.ToggleChat says |
| VoiceButton.VoiceAgentButton.CloseChat | goshawk_odoo_voice_agent/static/src/js/voice_agent_button.js:194-197 | keeps the invariant and updates the state as VoiceSession.CloseChat says |
| EndToEnd.ClientErrorBranchMatchesServer | goshawk_odoo_voice_agent/static/src/js/voice_agent_button.js:118-122 | the client takes its error branch exactly when the controller returned a non-empty error, and its answer branch exactly when it returned a prompt or an empty error |
| EndToEnd.AnswerAddsTwoMessages | goshawk_odoo_voice_agent/static/src/js/voice_agent_button.js:103-134 | an answered request adds exactly the user's and the assistant's messages, clears processing, and runs the action code when truthy, whatever the evaluation does |
| EndToEnd.NotConfiguredReachesChat | goshawk_odoo_voice_agent/controllers/main.py:26-27 | a missing agent shows as one system message with the controller's text and one danger notification, and no code runs |
| EndToEnd.EmptyErrorReadsAsAnswer | goshawk_odoo_voice_agent/controllers/main.py:43-45 | an exception with an empty message is read by the client as an answer with an undefined prompt and no notification |

## Left out

- Message ids and timestamps (`Date.now()`, `new Date()`) are not modelled; the ids are not unique in the source either.
- The SpeechRecognition API is not modelled: the recognizer's start and stop, its settings, and the joining of result segments. The joined transcript is an input of `OnResult`.
- Actions.DebugModeTwiceNavigatesOnce, AgentService.ActivateDebugModeTwice: a navigation is treated as finished before the next call, so a "second call" is one made after the reload. In the browser, `location.href` keeps the old URL until the new page loads, so two calls in one script would both find `debug` missing and both navigate; pending navigations are not modelled.
- The 1000 ms and 300 ms `setTimeout` delays are not modelled. Timers are explicit events: `OnTimeout` and `RetryOpenApp`. Pending retries fire oldest first.
- Firing the debounce timer empties the slot. The source keeps the stale handle, but clearing it later has no effect, so this is not observable.
- Dynamic evaluation of action code with `new Function` is not modelled. It is an opaque outcome (`Evaluation`), and its effects on the page are not modelled.
- JsText.Lower: only ASCII letters are lower-cased; Unicode case mapping of other letters is not modelled.
- Strings are sequences of characters, not UTF-16 code units.
- Each `startRecording` creates a new recognizer; the model keeps only "a recognizer exists" and does not model an older recognizer's callbacks.
- Not modelled: the OWL lifecycle (`useState`, `onWillStart`), registering the service and the systray item, and console logging.
- `models/voice_agent.py` (the Gemini calls and prompt text) is not part of this model. `generate_prompt` and `execute_action` are opaque calls that may raise.
- `__manifest__.py` is configuration only.
- The controller's `sudo().search` is an opaque call that returns a record, no record, or raises.
- In `openSettings`, the model does not treat `this` as ever detached from the actions object.
- `openApp` is modelled only for a string `appName`.
- An element matched by both selectors counts once, as `querySelectorAll` returns it once.
