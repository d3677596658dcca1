/**
 * The VoiceAgentButton component's state machine, as functions from one
 * state to the next. One function per handler; processVoiceInput is split
 * at its `await` into Begin (the request goes out) and Settle (the request
 * resolves or rejects). The debounce timer is a single slot holding the
 * transcript it will process, and its expiry is an explicit event.
 */
module VoiceSession {
  import opened Wrappers
  import opened JsText
  import opened Protocol
  import opened Notifications
  import Actions

  datatype Role = User | Assistant | System

  /** A chat message. Content is whatever value the handler passed, so an
      assistant message for a result without a prompt holds `Undefined`. */
  datatype Message = Message(role: Role, content: Value)

  /** How the RPC promise settles: it rejects, or resolves to a result object. */
  datatype RpcOutcome = Rejected | Resolved(result: Object)

  datatype Session = Session(
    speechSupported: bool,       // SpeechRecognition exists in this browser
    hasRecognizer: bool,         // this.recognition has been created
    isRecording: bool,
    isProcessing: bool,
    showChat: bool,
    currentInput: string,
    voiceTimeout: Option<string>,  // the pending debounce timer and the transcript it carries
    messages: seq<Message>,
    requests: seq<string>,       // text_input of every RPC sent, in order
    inFlight: nat,               // RPCs sent and not yet settled
    host: Actions.Host)          // the agent service's view of the page, and the notifications

  const Unsupported := "Speech recognition is not supported in this browser"
  const ActionFailed := "Error executing action"
  const RequestFailed := "Error processing voice input"

  /** The texts of the user messages, in order. */
  function UserTexts(ms: seq<Message>): seq<string> {
    if ms == [] then []
    else
      var last := ms[|ms| - 1];
      UserTexts(ms[..|ms| - 1])
      + (if last.role == User && last.content.Text? then [last.content.s] else [])
  }

  /** What every reachable state satisfies: processing implies a request is
      outstanding, only a created recognizer can be recording, and the user
      messages of the log are exactly the requests sent. */
  ghost predicate Consistent(s: Session) {
    (s.isProcessing ==> s.inFlight > 0)
    && s.inFlight <= |s.requests|
    && (s.isRecording ==> s.hasRecognizer)
    && (s.hasRecognizer ==> s.speechSupported)
    && UserTexts(s.messages) == s.requests
  }

  /** The two states agree on everything but the recording flags and the chat visibility. */
  predicate SameExceptRecording(s: Session, r: Session) {
    r == s.(isRecording := r.isRecording, hasRecognizer := r.hasRecognizer, showChat := r.showChat,
             host := s.host.(notices := r.host.notices))
    && s.host.notices <= r.host.notices
  }

  /** The append-only logs of `s` are prefixes of those of `r`. */
  predicate LogsGrow(s: Session, r: Session) {
    s.messages <= r.messages && s.requests <= r.requests
    && s.host.notices <= r.host.notices && s.host.evaluated <= r.host.evaluated
  }

  function AddNotice(s: Session, message: string, level: Level): (r: Session)
    ensures r.host.notices == s.host.notices + [Notification(message, level)]
  {
    s.(host := s.host.(notices := s.host.notices + [Notification(message, level)]))
  }

  /** startRecording: warn when speech recognition is unsupported;
      otherwise show the chat, create the recognizer and record. */
  function StartRecording(s: Session): (r: Session)
    ensures SameExceptRecording(s, r)
    ensures !s.speechSupported ==>
      r.host.notices == s.host.notices + [Notification(Unsupported, Warning)]
      && r.showChat == s.showChat && r.isRecording == s.isRecording && r.hasRecognizer == s.hasRecognizer
    ensures !s.speechSupported && Consistent(s) ==> !r.isRecording
    ensures s.speechSupported ==> r.isRecording && r.hasRecognizer && r.showChat && r.host == s.host
    ensures LogsGrow(s, r)
    ensures Consistent(s) ==> Consistent(r)
  {
    if !s.speechSupported then AddNotice(s, Unsupported, Warning)
    else s.(showChat := true, hasRecognizer := true, isRecording := true)
  }

  /** stopRecording: stop only if a recognizer exists; the pending debounce timer is left armed. */
  function StopRecording(s: Session): (r: Session)
    ensures SameExceptRecording(s, r) && r.host == s.host && r.showChat == s.showChat
    ensures r.voiceTimeout == s.voiceTimeout && r.hasRecognizer == s.hasRecognizer
    ensures s.hasRecognizer ==> !r.isRecording
    ensures !s.hasRecognizer ==> r == s
    ensures LogsGrow(s, r)
    ensures Consistent(s) ==> Consistent(r)
  {
    if s.hasRecognizer then s.(isRecording := false) else s
  }

  /** toggleMicrophone */
  function ToggleMicrophone(s: Session): (r: Session)
    ensures SameExceptRecording(s, r)
    ensures s.isRecording && s.hasRecognizer ==>
      !r.isRecording && r.hasRecognizer && r.host == s.host && r.showChat == s.showChat
    ensures s.isRecording && !s.hasRecognizer ==> r == s
    ensures !s.isRecording && s.speechSupported ==>
      r.isRecording && r.hasRecognizer && r.showChat && r.host == s.host
    ensures !s.isRecording && !s.speechSupported ==>
      r.host.notices == s.host.notices + [Notification(Unsupported, Warning)]
      && r.isRecording == s.isRecording && r.hasRecognizer == s.hasRecognizer && r.showChat == s.showChat
    ensures LogsGrow(s, r)
    ensures Consistent(s) ==> Consistent(r)
  {
    if s.isRecording then StopRecording(s) else StartRecording(s)
  }

  /** The recognizer's onend callback. */
  function RecognitionEnded(s: Session): (r: Session)
    ensures !r.isRecording
    ensures r == s.(isRecording := false)
    ensures LogsGrow(s, r)
    ensures Consistent(s) ==> Consistent(r)
  {
    if s.isRecording then s.(isRecording := false) else s
  }

  /** The recognizer's onresult callback, with the joined transcript: show it
      and replace any pending timer by one that will process this transcript. */
  function OnTranscript(s: Session, transcript: string): (r: Session)
    ensures r.currentInput == transcript
    ensures r.voiceTimeout == Some(transcript)
    ensures r.messages == s.messages && r.requests == s.requests && r.inFlight == s.inFlight
    ensures r.host == s.host && r.isProcessing == s.isProcessing && r.isRecording == s.isRecording
    ensures r.showChat == s.showChat && r.hasRecognizer == s.hasRecognizer && r.speechSupported == s.speechSupported
    ensures LogsGrow(s, r)
    ensures Consistent(s) ==> Consistent(r)
  {
    s.(currentInput := transcript, voiceTimeout := Some(transcript))
  }

  /** The request goes out: log `text` as a user message, clear the input
      box, mark processing and count one more request in flight. */
  function Enqueue(s: Session, text: string): (r: Session)
    ensures r.messages == s.messages + [Message(User, Text(text))]
    ensures r.requests == s.requests + [text] && r.inFlight == s.inFlight + 1
    ensures r.isProcessing && r.currentInput == ""
    // the pending timer, the recording flags, the chat and the host are untouched
    ensures r.host == s.host && r.voiceTimeout == s.voiceTimeout
    ensures r.isRecording == s.isRecording && r.hasRecognizer == s.hasRecognizer
    ensures r.showChat == s.showChat && r.speechSupported == s.speechSupported
    ensures LogsGrow(s, r)
    ensures Consistent(s) ==> Consistent(r)
  {
    s.(messages := s.messages + [Message(User, Text(text))], currentInput := "",
       isProcessing := true, requests := s.requests + [text], inFlight := s.inFlight + 1)
  }

  /** processVoiceInput up to its `await`: a blank text is ignored, any other
      text is sent. */
  function Begin(s: Session, text: string): (r: Session)
    ensures IsBlank(text) ==> r == s
    ensures !IsBlank(text) ==> r == Enqueue(s, text)
    ensures LogsGrow(s, r)
    ensures Consistent(s) ==> Consistent(r)
  {
    if Trim(text) == [] then s else Enqueue(s, text)
  }

  /** The debounce timer expires: it processes the transcript it was armed with. */
  function FireTimer(s: Session): (r: Session)
    requires s.voiceTimeout.Some?
    ensures r.voiceTimeout == None
    ensures r == Begin(s.(voiceTimeout := None), s.voiceTimeout.value)
    ensures LogsGrow(s, r)
    ensures Consistent(s) ==> Consistent(r)
  {
    Begin(s.(voiceTimeout := None), s.voiceTimeout.value)
  }

  /** A resolved result that the client treats as an error: `result.error` is truthy. */
  predicate IsErrorResult(outcome: RpcOutcome) {
    outcome.Resolved? && Truthy(Get(outcome.result, "error"))
  }

  /** A resolved result that the client treats as an answer. */
  predicate IsAnswer(outcome: RpcOutcome) {
    outcome.Resolved? && !Truthy(Get(outcome.result, "error"))
  }

  /** The action code of an answer, if it is truthy. */
  predicate HasCode(outcome: RpcOutcome) {
    IsAnswer(outcome) && Truthy(Get(outcome.result, "js_code"))
  }

  /** Only the message log and the host may differ, and no user message is added. */
  predicate OnlyLogsChanged(s: Session, r: Session) {
    r == s.(messages := r.messages, host := r.host)
    && r.host.query == s.host.query && r.host.effects == s.host.effects && r.host.retries == s.host.retries
    && UserTexts(r.messages) == UserTexts(s.messages)
  }

  lemma AppendNonUser(ms: seq<Message>, m: Message)
    requires m.role != User
    ensures UserTexts(ms + [m]) == UserTexts(ms)
  {
    assert (ms + [m])[..|ms|] == ms;
  }

  /** The inner try: run the action code; a throw is caught, reported, and goes no further. */
  function RunCode(s: Session, code: string, evaluation: Actions.Evaluation): (r: Session)
    ensures OnlyLogsChanged(s, r) && r.messages == s.messages && LogsGrow(s, r)
    ensures r.host.evaluated == s.host.evaluated + [code]
    ensures evaluation.Completed? ==> r.host.notices == s.host.notices
    ensures evaluation.Threw? ==>
      r.host.notices == s.host.notices
        + [Notification(Actions.ExecutionFailed, Danger), Notification(ActionFailed, Danger)]
  {
    var ran := s.(host := Actions.Execute(s.host, code, evaluation));
    if evaluation.Threw? then AddNotice(ran, ActionFailed, Danger) else ran
  }

  /** The outer try once the promise has settled, before `finally`. */
  function Respond(s: Session, outcome: RpcOutcome, evaluation: Actions.Evaluation): (r: Session)
    ensures OnlyLogsChanged(s, r) && LogsGrow(s, r)
    ensures outcome.Rejected? ==>
      r.messages == s.messages && r.host.evaluated == s.host.evaluated
      && r.host.notices == s.host.notices + [Notification(RequestFailed, Danger)]
    ensures IsErrorResult(outcome) ==>
      var error := ToJsString(Get(outcome.result, "error"));
      r.messages == s.messages + [Message(System, Text("Error: " + error))]
      && r.host.evaluated == s.host.evaluated
      && r.host.notices == s.host.notices + [Notification(error, Danger)]
    ensures IsAnswer(outcome) ==>
      r.messages == s.messages + [Message(Assistant, Get(outcome.result, "prompt"))]
    ensures IsAnswer(outcome) && !HasCode(outcome) ==> r.host == s.host
    ensures HasCode(outcome) ==>
      r == RunCode(s.(messages := r.messages), ToJsString(Get(outcome.result, "js_code")), evaluation)
  {
    match outcome
    case Rejected => AddNotice(s, RequestFailed, Danger)
    case Resolved(result) =>
      var error := Get(result, "error");
      if Truthy(error) then
        var m := Message(System, Text("Error: " + ToJsString(error)));
        AppendNonUser(s.messages, m);
        AddNotice(s, ToJsString(error), Danger).(messages := s.messages + [m])
      else
        var m := Message(Assistant, Get(result, "prompt"));
        AppendNonUser(s.messages, m);
        var answered := s.(messages := s.messages + [m]);
        var code := Get(result, "js_code");
        if Truthy(code) then RunCode(answered, ToJsString(code), evaluation) else answered
  }

  /** The rest of processVoiceInput, once the RPC settles. `evaluation` is
      what running the returned action code does, when there is code to run. */
  function Settle(s: Session, outcome: RpcOutcome, evaluation: Actions.Evaluation): (r: Session)
    requires s.inFlight > 0
    // finally: processing is over, whatever happened
    ensures !r.isProcessing && r.inFlight == s.inFlight - 1
    ensures LogsGrow(s, r)
    // besides the logs, only the processing fields change
    ensures r == s.(isProcessing := false, inFlight := s.inFlight - 1, messages := r.messages, host := r.host)
    ensures r.requests == s.requests && r.currentInput == s.currentInput && r.voiceTimeout == s.voiceTimeout
    ensures r.isRecording == s.isRecording && r.hasRecognizer == s.hasRecognizer && r.showChat == s.showChat
    ensures r.host.query == s.host.query && r.host.effects == s.host.effects && r.host.retries == s.host.retries
    // transport failure: a notification, no message, no action
    ensures outcome.Rejected? ==>
      r.messages == s.messages && r.host.evaluated == s.host.evaluated
      && r.host.notices == s.host.notices + [Notification(RequestFailed, Danger)]
    // backend error: one system message, no action
    ensures IsErrorResult(outcome) ==>
      var error := ToJsString(Get(outcome.result, "error"));
      r.messages == s.messages + [Message(System, Text("Error: " + error))]
      && r.host.evaluated == s.host.evaluated
      && r.host.notices == s.host.notices + [Notification(error, Danger)]
    // answer: one assistant message with the prompt, and the action code is run if present
    ensures IsAnswer(outcome) ==>
      r.messages == s.messages + [Message(Assistant, Get(outcome.result, "prompt"))]
    ensures IsAnswer(outcome) && !HasCode(outcome) ==>
      r.host.evaluated == s.host.evaluated && r.host.notices == s.host.notices
    ensures HasCode(outcome) ==>
      r.host.evaluated == s.host.evaluated + [ToJsString(Get(outcome.result, "js_code"))]
    ensures HasCode(outcome) && evaluation.Completed? ==> r.host.notices == s.host.notices
    // a failing action: two notifications (the service's and the button's), no further message
    ensures HasCode(outcome) && evaluation.Threw? ==>
      r.host.notices == s.host.notices
        + [Notification(Actions.ExecutionFailed, Danger), Notification(ActionFailed, Danger)]
    ensures Consistent(s) ==> Consistent(r)
  {
    Respond(s, outcome, evaluation).(isProcessing := false, inFlight := s.inFlight - 1)
  }

  /** onInputChange: the input box is edited. */
  function OnInputChange(s: Session, value: string): (r: Session)
    ensures r.currentInput == value
    ensures r == s.(currentInput := value)
    ensures LogsGrow(s, r)
    ensures Consistent(s) ==> Consistent(r)
  {
    s.(currentInput := value)
  }

  /** onSubmit: send the trimmed input box, unless it is blank. */
  function OnSubmit(s: Session): (r: Session)
    ensures IsBlank(s.currentInput) ==> r == s
    ensures !IsBlank(s.currentInput) ==>
      r.messages == s.messages + [Message(User, Text(Trim(s.currentInput)))]
      && r.requests == s.requests + [Trim(s.currentInput)]
      && r.isProcessing && r.currentInput == "" && r.inFlight == s.inFlight + 1
    ensures !IsBlank(s.currentInput) ==> r == Enqueue(s, Trim(s.currentInput))
    ensures LogsGrow(s, r)
    ensures Consistent(s) ==> Consistent(r)
  {
    var input := Trim(s.currentInput);
    if input != [] then Begin(s, input) else s
  }

  /** toggleChat */
  function ToggleChat(s: Session): (r: Session)
    ensures r.showChat == !s.showChat
    ensures r == s.(showChat := r.showChat)
    ensures LogsGrow(s, r)
    ensures Consistent(s) ==> Consistent(r)
  {
    s.(showChat := !s.showChat)
  }

  /** closeChat: hide the chat and stop recording (which leaves a pending timer armed). */
  function CloseChat(s: Session): (r: Session)
    ensures !r.showChat
    ensures s.hasRecognizer ==> !r.isRecording
    ensures !s.hasRecognizer ==> r.isRecording == s.isRecording
    ensures r.hasRecognizer == s.hasRecognizer
    ensures SameExceptRecording(s, r) && r.host == s.host && r.voiceTimeout == s.voiceTimeout
    ensures LogsGrow(s, r)
    ensures Consistent(s) ==> Consistent(r)
  {
    StopRecording(s.(showChat := false))
  }

  /** The events the component reacts to. */
  datatype Event =
    | MicrophoneToggled
    | RecordingStarted
    | RecordingStopped
    | RecognizerEnded
    | TranscriptArrived(transcript: string)
    | TimerExpired
    | RpcSettled(outcome: RpcOutcome, evaluation: Actions.Evaluation)
    | InputEdited(value: string)
    | Submitted
    | ChatToggled
    | ChatClosed

  /** One event. A timer expiry with no timer pending and a settlement with
      no request outstanding cannot happen; they change nothing. */
  function Step(s: Session, e: Event): Session {
    match e
    case MicrophoneToggled => ToggleMicrophone(s)
    case RecordingStarted => StartRecording(s)
    case RecordingStopped => StopRecording(s)
    case RecognizerEnded => RecognitionEnded(s)
    case TranscriptArrived(t) => OnTranscript(s, t)
    case TimerExpired => if s.voiceTimeout.Some? then FireTimer(s) else s
    case RpcSettled(o, ev) => if s.inFlight > 0 then Settle(s, o, ev) else s
    case InputEdited(v) => OnInputChange(s, v)
    case Submitted => OnSubmit(s)
    case ChatToggled => ToggleChat(s)
    case ChatClosed => CloseChat(s)
  }

  function Run(s: Session, es: seq<Event>): Session
    decreases |es|
  {
    if es == [] then s else Run(Step(s, es[0]), es[1..])
  }

  /** Every event keeps the state consistent. */
  lemma StepConsistent(s: Session, e: Event)
    requires Consistent(s)
    ensures Consistent(Step(s, e))
  {
  }

  lemma {:induction false} RunConsistent(s: Session, es: seq<Event>)
    requires Consistent(s)
    ensures Consistent(Run(s, es))
    decreases |es|
  {
    if es != [] {
      StepConsistent(s, es[0]);
      RunConsistent(Step(s, es[0]), es[1..]);
    }
  }

  /** The logs only ever grow: messages, requests, notifications and executed code. */
  lemma StepGrowsLogs(s: Session, e: Event)
    ensures LogsGrow(s, Step(s, e))
  {
    match e
    case MicrophoneToggled =>
    case RecordingStarted =>
    case RecordingStopped =>
    case RecognizerEnded =>
    case TranscriptArrived(t) =>
    case TimerExpired =>
    case RpcSettled(o, ev) =>
    case InputEdited(v) =>
    case Submitted =>
    case ChatToggled =>
    case ChatClosed =>
  }

  lemma {:induction false} RunGrowsLogs(s: Session, es: seq<Event>)
    ensures LogsGrow(s, Run(s, es))
    decreases |es|
  {
    if es != [] {
      StepGrowsLogs(s, es[0]);
      RunGrowsLogs(Step(s, es[0]), es[1..]);
    }
  }

  function Transcripts(ts: seq<string>): (es: seq<Event>)
    ensures |es| == |ts|
    ensures forall k :: 0 <= k < |ts| ==> es[k] == TranscriptArrived(ts[k])
  {
    seq(|ts|, k requires 0 <= k < |ts| => TranscriptArrived(ts[k]))
  }

  /** Debouncing: after a burst of transcript updates, exactly one timer is
      pending, it carries the last transcript, the input box shows it, and
      nothing has been sent; when the timer expires the last transcript,
      and only it, is processed. */
  lemma {:induction false} DebounceKeepsLast(s: Session, ts: seq<string>)
    requires ts != []
    ensures var r := Run(s, Transcripts(ts));
      r.voiceTimeout == Some(ts[|ts| - 1]) && r.currentInput == ts[|ts| - 1]
      && r.messages == s.messages && r.requests == s.requests && r.host == s.host
      && Step(r, TimerExpired) == Begin(r.(voiceTimeout := None), ts[|ts| - 1])
    decreases |ts|
  {
    var s1 := Step(s, TranscriptArrived(ts[0]));
    assert Transcripts(ts)[1..] == Transcripts(ts[1..]);
    if |ts| > 1 {
      DebounceKeepsLast(s1, ts[1..]);
    } else {
      assert Run(s1, []) == s1;
    }
  }

  /** Nothing guards against a second request: two non-blank inputs in a
      row put two requests in flight at once. */
  lemma TwoRequestsCanOverlap(s: Session, a: string, b: string)
    requires !IsBlank(a) && !IsBlank(b)
    ensures Begin(Begin(s, a), b).inFlight == s.inFlight + 2
    ensures Begin(Begin(s, a), b).requests == s.requests + [a, b]
  {
  }

  /** Stopping does not cancel the debounce timer: a transcript that arrived
      before stop is still processed when its timer expires. */
  lemma StopDoesNotCancelTimer(s: Session, t: string)
    requires !IsBlank(t)
    ensures var r := Run(s, [TranscriptArrived(t), RecordingStopped, TimerExpired]);
      r.messages == s.messages + [Message(User, Text(t))] && r.requests == s.requests + [t]
  {
    var s1 := Step(s, TranscriptArrived(t));
    var s2 := Step(s1, RecordingStopped);
    var s3 := Step(s2, TimerExpired);
    assert Run(s, [TranscriptArrived(t), RecordingStopped, TimerExpired]) == s3 by {
      assert [TranscriptArrived(t), RecordingStopped, TimerExpired][1..] == [RecordingStopped, TimerExpired];
      assert [RecordingStopped, TimerExpired][1..] == [TimerExpired];
      assert [TimerExpired][1..] == [];
    }
  }

  /** Submitting a transcript by hand does not disarm its debounce timer, so
      the same text is sent a second time when the timer expires. */
  lemma SubmittedTranscriptSentTwice(s: Session, t: string)
    requires !IsBlank(t) && Trim(t) == t
    ensures var r := Run(s, [TranscriptArrived(t), Submitted, TimerExpired]);
      r.requests == s.requests + [t, t]
      && r.messages == s.messages + [Message(User, Text(t)), Message(User, Text(t))]
  {
    var s1 := Step(s, TranscriptArrived(t));
    var s2 := Step(s1, Submitted);
    var s3 := Step(s2, TimerExpired);
    assert s2.voiceTimeout == Some(t);
    assert Run(s, [TranscriptArrived(t), Submitted, TimerExpired]) == s3 by {
      assert [TranscriptArrived(t), Submitted, TimerExpired][1..] == [Submitted, TimerExpired];
      assert [Submitted, TimerExpired][1..] == [TimerExpired];
      assert [TimerExpired][1..] == [];
    }
  }
}
