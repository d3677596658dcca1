/**
 * The controller's result as the button receives it: the RPC resolves to
 * the object ProcessVoice returns, and Settle branches on its `error`,
 * `prompt` and `js_code` keys.
 */
module EndToEnd {
  import opened Wrappers
  import opened JsText
  import opened Protocol
  import opened Notifications
  import opened Controller
  import opened VoiceSession

  /** The client takes its error branch exactly when the controller
      reported an error with a non-empty message. */
  lemma ClientErrorBranchMatchesServer(
    search: Call<Option<Agent>>, audioData: Value, textInput: Value,
    generatePrompt: (Agent, Value) -> Call<Value>,
    executeAction: (Agent, Value) -> Call<Value>)
    ensures var r := ProcessVoice(search, audioData, textInput, generatePrompt, executeAction);
      (IsErrorResult(Resolved(r)) <==> "error" in r && r["error"] != Text(""))
      && (IsAnswer(Resolved(r)) <==> "prompt" in r || r == ErrorResult(""))
  {
    var r := ProcessVoice(search, audioData, textInput, generatePrompt, executeAction);
    if "error" in r {
      assert r == ErrorResult(r["error"].s);
    }
  }

  /** A request the agent answers: the chat gains exactly the user's text
      and the assistant's prompt, processing ends, and the action code runs
      when it is truthy, whatever its evaluation does. */
  lemma AnswerAddsTwoMessages(
    s: Session, text: string, agent: Agent, audioData: Value,
    generatePrompt: (Agent, Value) -> Call<Value>,
    executeAction: (Agent, Value) -> Call<Value>,
    evaluation: Actions.Evaluation)
    requires !IsBlank(text)
    requires generatePrompt(agent, Text(text)).Returned?
    requires executeAction(agent, generatePrompt(agent, Text(text)).value).Returned?
    ensures var prompt := generatePrompt(agent, Text(text)).value;
      var code := executeAction(agent, prompt).value;
      var r := ProcessVoice(Returned(Some(agent)), audioData, Text(text), generatePrompt, executeAction);
      var after := Settle(Begin(s, text), Resolved(r), evaluation);
      after.messages == s.messages + [Message(User, Text(text)), Message(Assistant, prompt)]
      && after.requests == s.requests + [text]
      && !after.isProcessing && after.inFlight == s.inFlight
      && (Truthy(code) ==> after.host.evaluated == s.host.evaluated + [ToJsString(code)])
      && (!Truthy(code) ==> after.host == s.host)
  {
    assert Truthy(Text(text)) by {
      assert text != [];
    }
    var r := ProcessVoice(Returned(Some(agent)), audioData, Text(text), generatePrompt, executeAction);
    assert IsAnswer(Resolved(r));
  }

  /** A missing agent: after the user's message the chat gains one system
      message carrying the controller's text, and nothing is executed. */
  lemma NotConfiguredReachesChat(
    s: Session, text: string, audioData: Value,
    generatePrompt: (Agent, Value) -> Call<Value>,
    executeAction: (Agent, Value) -> Call<Value>,
    evaluation: Actions.Evaluation)
    requires !IsBlank(text)
    ensures var r := ProcessVoice(Returned(None), audioData, Text(text), generatePrompt, executeAction);
      var after := Settle(Begin(s, text), Resolved(r), evaluation);
      after.messages == s.messages + [Message(User, Text(text)), Message(System, Text("Error: " + NotConfigured))]
      && after.host.notices == s.host.notices + [Notification(NotConfigured, Danger)]
      && after.host.evaluated == s.host.evaluated
  {
    var r := ProcessVoice(Returned(None), audioData, Text(text), generatePrompt, executeAction);
    assert IsErrorResult(Resolved(r)) by {
      assert Get(r, "error") == Text(NotConfigured);
    }
  }

  /** An exception whose `str` is empty becomes `{'error': ''}`, which the
      client reads as an answer: it appends an assistant message whose
      content is undefined and adds no notification. */
  lemma EmptyErrorReadsAsAnswer(
    s: Session, audioData: Value, textInput: Value,
    generatePrompt: (Agent, Value) -> Call<Value>,
    executeAction: (Agent, Value) -> Call<Value>,
    evaluation: Actions.Evaluation)
    requires s.inFlight > 0
    ensures var r := ProcessVoice(Raised(""), audioData, textInput, generatePrompt, executeAction);
      var after := Settle(s, Resolved(r), evaluation);
      "error" in r && !IsErrorResult(Resolved(r))
      && after.messages == s.messages + [Message(Assistant, Undefined)]
      && after.host == s.host
  {
    var r := ProcessVoice(Raised(""), audioData, textInput, generatePrompt, executeAction);
    assert Get(r, "prompt") == Undefined && Get(r, "js_code") == Undefined;
  }
}
