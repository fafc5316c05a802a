/** The Copilot Studio adapter (`sk_for_copilotstudio`): checks the backend's
    type and the question, forwards the question to a CopilotStudioAgent,
    and replies with the accumulated answer as it is. */
module CopilotStudio {
  import opened Wrappers
  import opened Text
  import opened A2A

  /** What an `object? agent` argument can be, as far as the type test sees. */
  datatype Backend = NoAgent | CopilotStudioAgent | OtherAgent

  const InvalidAgentType: Fault :=
    Argument("Invalid agent type. Expected CopilotStudioAgent.", Some("agent"))

  const BlankQuestion: Fault :=
    Argument("Question cannot be null or empty.", Some("question"))

  class SkForCopilotStudio {
    /** `_agent`, set once by the constructor's initialisation. */
    var agent: Backend
    var agentName: string
    var agentDescription: string

    constructor()
      ensures agent == CopilotStudioAgent
      ensures agentName == "Copilot Studio Agent"
      ensures agentDescription == "Copilot Studio Agent wrapped by Semantic Kernel and A2A"
    {
      agentName := "Copilot Studio Agent";
      agentDescription := "Copilot Studio Agent wrapped by Semantic Kernel and A2A";
      agent := CopilotStudioAgent;
    }

    /** Points both task-manager slots at this adapter. */
    method Attach(taskManager: TaskManager)
      modifies taskManager
      ensures taskManager.onMessageReceived == Some(CopilotStudioAdapter)
      ensures taskManager.onAgentCardQuery == Some(CopilotStudioAdapter)
    {
      taskManager.onMessageReceived := Some(CopilotStudioAdapter);
      taskManager.onAgentCardQuery := Some(CopilotStudioAdapter);
    }

    /** The card handler: name and description come from the adapter's fields. */
    function GetAgentCard(agentUrl: string, cancelled: bool): (r: Outcome<AgentCard>)
      reads this
      ensures cancelled <==> r.Canceled?
      ensures !cancelled ==> r.Completed?
      ensures r.Completed? ==>
                && r.value.name == agentName
                && r.value.description == agentDescription
                && r.value == StandardCard(r.value.name, r.value.description, agentUrl)
    {
      if cancelled then Canceled
      else Completed(StandardCard(agentName, agentDescription, agentUrl))
    }

    /** Asks the backend and accumulates its answer. The agent's type is
        tested first, then the question; only when both pass is the backend
        invoked, and `stream` is what it streams back; an exception the
        backend throws while streaming is passed on. */
    static method GenericChatWithAgent(agent: Backend, question: Option<string>, stream: Stream)
      returns (r: Result<string, Fault>, invoked: bool)
      ensures agent != CopilotStudioAgent ==> r == Failure(InvalidAgentType) && !invoked
      ensures agent == CopilotStudioAgent && IsNullOrWhiteSpace(question) ==> r == Failure(BlankQuestion) && !invoked
      ensures invoked <==> agent == CopilotStudioAgent && !IsNullOrWhiteSpace(question)
      ensures invoked && stream.fault.None? ==> r == Success(ConcatContents(stream.chunks))
      ensures invoked && stream.fault.Some? ==> r == Failure(stream.fault.value)
    {
      if agent != CopilotStudioAgent {
        return Failure(InvalidAgentType), false;
      }
      if IsNullOrWhiteSpace(question) {
        return Failure(BlankQuestion), false;
      }
      r := AccumulateStream(stream);
      invoked := true;
    }

    /** The message handler: cancellation first, then the first text part,
        then the backend, whose fault `.Result` rethrows wrapped. */
    method ProcessMessage(request: MessageSendParams, cancelled: bool, newId: string, stream: Stream)
      returns (r: Outcome<AgentMessage>, invoked: bool)
      ensures cancelled ==> r == Canceled && !invoked
      ensures !cancelled && FirstTextPart(request.message.parts).None? ==> r == Threw(NoElements) && !invoked
      ensures invoked <==>
                && !cancelled
                && FirstTextPart(request.message.parts).Some?
                && agent == CopilotStudioAgent
                && !AllWhiteSpace(FirstTextPart(request.message.parts).value)
      ensures !cancelled && FirstTextPart(request.message.parts).Some? && agent != CopilotStudioAgent ==>
                r == Threw(Aggregate(InvalidAgentType))
      ensures !cancelled && FirstTextPart(request.message.parts).Some? && agent == CopilotStudioAgent
                && AllWhiteSpace(FirstTextPart(request.message.parts).value) ==>
                r == Threw(Aggregate(BlankQuestion))
      ensures invoked && stream.fault.Some? ==> r == Threw(Aggregate(stream.fault.value))
      ensures invoked && stream.fault.None? ==>
                && r.Completed?
                && r.value.role == Agent
                && r.value.messageId == newId
                && r.value.contextId == request.message.contextId
                && r.value.parts == [TextPart(ConcatContents(stream.chunks))]
    {
      if cancelled {
        return Canceled, false;
      }
      var messageText := FirstTextPart(request.message.parts);
      if messageText.None? {
        return Threw(NoElements), false;
      }
      var response;
      response, invoked := GenericChatWithAgent(agent, messageText, stream);
      if response.Failure? {
        return Threw(Aggregate(response.error)), invoked;
      }
      r := Completed(Reply(request, newId, response.value));
    }
  }

  /** The adapter as constructed asks the backend for exactly the requests
      whose first text part has a non-whitespace character. */
  method ConstructedAdapterRejectsBlank(request: MessageSendParams, newId: string, stream: Stream)
    returns (invoked: bool)
    requires FirstTextPart(request.message.parts).Some?
    ensures invoked <==> exists i :: 0 <= i < |FirstTextPart(request.message.parts).value|
                                    && !IsWhiteSpace(FirstTextPart(request.message.parts).value[i])
  {
    var adapter := new SkForCopilotStudio();
    var r;
    r, invoked := adapter.ProcessMessage(request, false, newId, stream);
    AllWhiteSpaceChars(FirstTextPart(request.message.parts).value);
  }
}
