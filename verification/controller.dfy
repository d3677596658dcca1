/**
 * The JSON route /voice_agent/process_voice of VoiceAgentController: find the
 * configured agent, check that some input was sent, ask the agent for a
 * prompt and then for action code, and turn every exception into an error
 * result.
 */
module Controller {
  import opened Wrappers
  import opened Protocol

  /** The outcome of a call that may raise: its value, or the `str(e)` of what it raised. */
  datatype Call<T> = Returned(value: T) | Raised(message: string)

  /** The goshawk.voice.agent record found by the search. Its fields are read
      only by its own methods, which are parameters here. */
  datatype Agent = Agent

  const NotConfigured := "Voice agent not configured"
  const NoInput := "No input provided"

  function ErrorResult(message: string): Object {
    map["error" := Text(message)]
  }

  predicate Found(search: Call<Option<Agent>>) {
    search.Returned? && search.value.Some?
  }

  /** `text_input or audio_data`, in Python's truthiness. */
  predicate HasInput(audioData: Value, textInput: Value) {
    Truthy(textInput) || Truthy(audioData)
  }

  /** The route's result, given the outcome of the agent search
      (`Returned(None)` when no agent exists), the two request arguments
      (`Null` when omitted), and the agent's two Gemini-backed methods. */
  function ProcessVoice(
    search: Call<Option<Agent>>,
    audioData: Value,
    textInput: Value,
    generatePrompt: (Agent, Value) -> Call<Value>,
    executeAction: (Agent, Value) -> Call<Value>): (r: Object)
    // the result always has exactly one of an error and a prompt
    ensures ("error" in r) != ("prompt" in r)
    ensures "error" in r ==> r.Keys == {"error"} && r["error"].Text?
    // a failed search is reported as it was raised
    ensures search.Raised? ==> r == ErrorResult(search.message)
    // a missing agent is reported before the input is even looked at
    ensures search == Returned(None) ==> r == ErrorResult(NotConfigured)
    // an agent but neither input: the input error
    ensures (Found(search) && !HasInput(audioData, textInput)) ==> r == ErrorResult(NoInput)
    // success exactly when every step succeeded; the action code is chained from the prompt
    ensures "prompt" in r <==>
      (Found(search) && HasInput(audioData, textInput)
       && generatePrompt(search.value.value, textInput).Returned?
       && executeAction(search.value.value, generatePrompt(search.value.value, textInput).value).Returned?)
    ensures "prompt" in r ==>
      var agent := search.value.value;
      r.Keys == {"success", "prompt", "js_code"} && r["success"] == Flag(true)
      && r["prompt"] == generatePrompt(agent, textInput).value
      && r["js_code"] == executeAction(agent, r["prompt"]).value
    // a call that raised after the checks surfaces its own message
    ensures (Found(search) && HasInput(audioData, textInput)
             && generatePrompt(search.value.value, textInput).Raised?) ==>
      r == ErrorResult(generatePrompt(search.value.value, textInput).message)
    ensures (Found(search) && HasInput(audioData, textInput)
             && generatePrompt(search.value.value, textInput).Returned?
             && executeAction(search.value.value, generatePrompt(search.value.value, textInput).value).Raised?) ==>
      r == ErrorResult(executeAction(search.value.value, generatePrompt(search.value.value, textInput).value).message)
  {
    match search
    case Raised(e) => ErrorResult(e)
    case Returned(None) => ErrorResult(NotConfigured)
    case Returned(Some(agent)) =>
      if !Truthy(textInput) && !Truthy(audioData) then ErrorResult(NoInput)
      else
        match generatePrompt(agent, textInput)
        case Raised(e) => ErrorResult(e)
        case Returned(prompt) =>
          match executeAction(agent, prompt)
          case Raised(e) => ErrorResult(e)
          case Returned(jsCode) =>
            map["success" := Flag(true), "prompt" := prompt, "js_code" := jsCode]
  }

  /** The route never fails for lack of a text input alone: audio data
      by itself passes the input check, and the prompt is then generated
      from the (falsy) text input. */
  lemma AudioAloneReachesGeneration(
    agent: Agent, audioData: Value, textInput: Value,
    generatePrompt: (Agent, Value) -> Call<Value>,
    executeAction: (Agent, Value) -> Call<Value>)
    requires Truthy(audioData) && !Truthy(textInput)
    requires generatePrompt(agent, textInput).Returned?
    requires executeAction(agent, generatePrompt(agent, textInput).value).Returned?
    ensures ProcessVoice(Returned(Some(agent)), audioData, textInput, generatePrompt, executeAction)["prompt"]
      == generatePrompt(agent, textInput).value
  {
  }
}
