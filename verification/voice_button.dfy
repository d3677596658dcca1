/**
 * The VoiceAgentButton component: its reactive state is fields of the
 * class, each handler is a method that updates them in place, and each
 * method is proved to make the move of module VoiceSession that models it.
 */
module VoiceButton {
  import opened Wrappers
  import opened JsText
  import opened Protocol
  import opened Notifications
  import Actions
  import AgentService
  import VoiceSession

  class VoiceAgentButton {
    const speechSupported: bool
    const notification: NotificationService
    const agent: AgentService.VoiceAgentService

    var hasRecognizer: bool
    var isRecording: bool
    var isProcessing: bool
    var showChat: bool
    var currentInput: string
    var voiceTimeout: Option<string>
    var messages: seq<VoiceSession.Message>
    /** Bookkeeping for the proofs: the text of every request sent, and how many are unsettled. */
    ghost var requests: seq<string>
    ghost var inFlight: nat

    ghost function Snapshot(): VoiceSession.Session
      reads this, agent, agent.notification
    {
      VoiceSession.Session(speechSupported, hasRecognizer, isRecording, isProcessing, showChat,
        currentInput, voiceTimeout, messages, requests, inFlight, agent.Snapshot())
    }

    ghost predicate Valid()
      reads this, agent, agent.notification
    {
      agent.notification == notification && VoiceSession.Consistent(Snapshot())
    }

    /** setup(): `speechSupported` is what onWillStart finds in the browser. */
    constructor (speechSupported: bool, notification: NotificationService, agent: AgentService.VoiceAgentService)
      requires agent.notification == notification
      ensures Valid()
      ensures this.notification == notification && this.agent == agent
      ensures Snapshot() == VoiceSession.Session(speechSupported, false, false, false, false,
        "", None, [], [], 0, agent.Snapshot())
    {
      this.speechSupported := speechSupported;
      this.notification := notification;
      this.agent := agent;
      hasRecognizer, isRecording, isProcessing, showChat := false, false, false, false;
      currentInput, voiceTimeout := "", None;
      messages, requests, inFlight := [], [], 0;
    }

    method ToggleMicrophone()
      requires Valid()
      modifies this, notification
      ensures Valid()
      ensures Snapshot() == VoiceSession.ToggleMicrophone(old(Snapshot()))
    {
      if isRecording {
        StopRecording();
      } else {
        StartRecording();
      }
    }

    method StartRecording()
      requires Valid()
      modifies this, notification
      ensures Valid()
      ensures Snapshot() == VoiceSession.StartRecording(old(Snapshot()))
    {
      if !speechSupported {
        notification.Add(VoiceSession.Unsupported, Warning);
        return;
      }
      showChat := true;
      hasRecognizer := true;
      isRecording := true;
    }

    method StopRecording()
      requires Valid()
      modifies this
      ensures Valid()
      ensures Snapshot() == VoiceSession.StopRecording(old(Snapshot()))
    {
      if hasRecognizer {
        isRecording := false;
      }
    }

    /** The recognizer's onend callback. */
    method OnRecognitionEnd()
      requires Valid()
      modifies this
      ensures Valid()
      ensures Snapshot() == VoiceSession.RecognitionEnded(old(Snapshot()))
    {
      if isRecording {
        isRecording := false;
      }
    }

    /** The recognizer's onresult callback, given the joined transcript. */
    method OnResult(transcript: string)
      requires Valid()
      modifies this
      ensures Valid()
      ensures Snapshot() == VoiceSession.OnTranscript(old(Snapshot()), transcript)
    {
      currentInput := transcript;
      // clearTimeout on the old timer and setTimeout for the new one: the slot is overwritten
      voiceTimeout := Some(transcript);
    }

    /** The debounce timer expires. */
    method OnTimeout()
      requires Valid() && voiceTimeout.Some?
      modifies this
      ensures Valid()
      ensures Snapshot() == VoiceSession.FireTimer(old(Snapshot()))
    {
      var transcript := voiceTimeout.value;
      voiceTimeout := None;
      ProcessVoiceInput(transcript);
    }

    /** processVoiceInput up to the point where the RPC is sent. */
    method ProcessVoiceInput(transcript: string)
      requires Valid()
      modifies this
      ensures Valid()
      ensures Snapshot() == VoiceSession.Begin(old(Snapshot()), transcript)
    {
      if !IsBlank(transcript) {
        SendRequest(transcript);
      }
    }

    /** The non-blank branch of processVoiceInput, before its `await`. */
    method SendRequest(transcript: string)
      requires Valid()
      modifies this
      ensures Valid()
      ensures Snapshot() == VoiceSession.Enqueue(old(Snapshot()), transcript)
    {
      ghost var s0 := Snapshot();
      AddMessage(VoiceSession.User, Text(transcript));
      currentInput := "";
      isProcessing := true;
      requests := requests + [transcript];
      inFlight := inFlight + 1;
      assert Snapshot() == s0.(messages := messages, currentInput := "", isProcessing := true,
        requests := requests, inFlight := inFlight);
    }

    /** processVoiceInput after its `await`: the RPC promise settles with
        `outcome`; `evaluation` is what the returned action code does. */
    method OnRpcSettled(outcome: VoiceSession.RpcOutcome, evaluation: Actions.Evaluation)
      requires Valid() && inFlight > 0
      modifies this, notification, agent
      ensures Valid()
      ensures Snapshot() == VoiceSession.Settle(old(Snapshot()), outcome, evaluation)
    {
      Respond(outcome, evaluation);
      // finally
      isProcessing := false;
      inFlight := inFlight - 1;
    }

    /** The outer try of processVoiceInput once the promise has settled. */
    method Respond(outcome: VoiceSession.RpcOutcome, evaluation: Actions.Evaluation)
      requires agent.notification == notification
      modifies this`messages, notification, agent
      ensures Snapshot() == VoiceSession.Respond(old(Snapshot()), outcome, evaluation)
    {
      match outcome {
        case Rejected =>
          notification.Add(VoiceSession.RequestFailed, Danger);
        case Resolved(result) =>
          var error := Get(result, "error");
          if Truthy(error) {
            notification.Add(ToJsString(error), Danger);
            AddMessage(VoiceSession.System, Text("Error: " + ToJsString(error)));
          } else {
            AddMessage(VoiceSession.Assistant, Get(result, "prompt"));
            var code := Get(result, "js_code");
            if Truthy(code) {
              RunActionCode(ToJsString(code), evaluation);
            }
          }
      }
    }

    /** The inner try of processVoiceInput: run the action code and, when it
        throws, add the button's own notification to the service's. */
    method RunActionCode(code: string, evaluation: Actions.Evaluation)
      requires agent.notification == notification
      modifies notification, agent
      ensures Snapshot() == VoiceSession.RunCode(old(Snapshot()), code, evaluation)
    {
      var thrown := agent.ExecuteCode(code, evaluation);
      if thrown.Threw? {
        notification.Add(VoiceSession.ActionFailed, Danger);
      }
    }

    /** addMessage: append to the chat log (ids and timestamps are not modelled). */
    method AddMessage(role: VoiceSession.Role, content: Value)
      modifies this`messages
      ensures messages == old(messages) + [VoiceSession.Message(role, content)]
    {
      messages := messages + [VoiceSession.Message(role, content)];
    }

    method OnSubmit()
      requires Valid()
      modifies this
      ensures Valid()
      ensures Snapshot() == VoiceSession.OnSubmit(old(Snapshot()))
    {
      var input := Trim(currentInput);
      if input != [] {
        ProcessVoiceInput(input);
      }
    }

    method OnInputChange(value: string)
      requires Valid()
      modifies this
      ensures Valid()
      ensures Snapshot() == VoiceSession.OnInputChange(old(Snapshot()), value)
    {
      currentInput := value;
    }

    method ToggleChat()
      requires Valid()
      modifies this
      ensures Valid()
      ensures Snapshot() == VoiceSession.ToggleChat(old(Snapshot()))
    {
      showChat := !showChat;
    }

    method CloseChat()
      requires Valid()
      modifies this
      ensures Valid()
      ensures Snapshot() == VoiceSession.CloseChat(old(Snapshot()))
    {
      showChat := false;
      StopRecording();
    }
  }
}
