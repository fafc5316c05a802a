/** The Semantic Kernel chat-completion adapter: forwards the question to a
    ChatCompletionAgent, accumulates its answer, and replies with
    "Response:\n" in front of it. */
module SKCompletion {
  import opened Wrappers
  import opened A2A

  /** What an `object? agent` argument can be, as far as the type test sees. */
  datatype Backend = NoAgent | ChatCompletionAgent | OtherAgent

  const ResponsePrefix: string := "Response:\n"

  const NotChatCompletion: Fault := Argument("The provided agent is not a ChatCompletionAgent.", None)

  class SKCompletionAgent {
    /** `_agent`, set once by the constructor's initialisation. */
    var agent: Backend

    constructor()
      ensures agent == ChatCompletionAgent
    {
      agent := ChatCompletionAgent;
    }

    /** Points both task-manager slots at this adapter. */
    method Attach(taskManager: TaskManager)
      modifies taskManager
      ensures taskManager.onMessageReceived == Some(SKCompletionAdapter)
      ensures taskManager.onAgentCardQuery == Some(SKCompletionAdapter)
    {
      taskManager.onMessageReceived := Some(SKCompletionAdapter);
      taskManager.onAgentCardQuery := Some(SKCompletionAdapter);
    }

    /** The card handler. */
    function GetAgentCard(agentUrl: string, cancelled: bool): (r: Outcome<AgentCard>)
      ensures cancelled <==> r.Canceled?
      ensures !cancelled ==> r.Completed?
      ensures r.Completed? ==>
                && r.value.name == "SK Agent"
                && r.value.description == "SK Agent using Semantic Kernel Chat Completion"
                && r.value == StandardCard(r.value.name, r.value.description, agentUrl)
    {
      if cancelled then Canceled
      else Completed(StandardCard("SK Agent", "SK Agent using Semantic Kernel Chat Completion", agentUrl))
    }

    /** Asks the backend and accumulates its answer. `stream` is what the
        agent streams back for this question; `invoked` says whether it was
        asked at all. Only a ChatCompletionAgent is asked; anything else
        (null included) faults with an ArgumentException. A backend that
        throws while streaming passes its exception on. */
    static method GenericChatWithAgent(agent: Backend, question: Option<string>, stream: Stream)
      returns (r: Result<string, Fault>, invoked: bool)
      ensures invoked <==> agent == ChatCompletionAgent
      ensures invoked && stream.fault.None? ==> r == Success(ConcatContents(stream.chunks))
      ensures invoked && stream.fault.Some? ==> r == Failure(stream.fault.value)
      ensures !invoked ==> r == Failure(NotChatCompletion)
    {
      if agent == ChatCompletionAgent {
        r := AccumulateStream(stream);
        invoked := true;
      } else {
        r, invoked := Failure(NotChatCompletion), false;
      }
    }

    /** The message handler: cancellation first, then the first text part,
        then the backend, whose fault `.Result` rethrows wrapped. */
    method ProcessMessage(request: MessageSendParams, cancelled: bool, newId: string, stream: Stream)
      returns (r: Outcome<AgentMessage>, invoked: bool)
      ensures cancelled ==> r == Canceled && !invoked
      ensures !cancelled && FirstTextPart(request.message.parts).None? ==> r == Threw(NoElements) && !invoked
      ensures invoked <==> !cancelled && FirstTextPart(request.message.parts).Some? && agent == ChatCompletionAgent
      ensures !cancelled && FirstTextPart(request.message.parts).Some? && !invoked ==>
                r == Threw(Aggregate(NotChatCompletion))
      ensures invoked && stream.fault.Some? ==> r == Threw(Aggregate(stream.fault.value))
      ensures invoked && stream.fault.None? ==>
                && r.Completed?
                && r.value.role == Agent
                && r.value.messageId == newId
                && r.value.contextId == request.message.contextId
                && r.value.parts == [TextPart(ResponsePrefix + ConcatContents(stream.chunks))]
    {
      if cancelled {
        return Canceled, false;
      }
      var messageText := FirstTextPart(request.message.parts);
      if messageText.None? {
        return Threw(NoElements), false;
      }
      var response;
      response, invoked := GenericChatWithAgent(agent, messageText, stream);
      if response.Failure? {
        return Threw(Aggregate(response.error)), invoked;
      }
      r := Completed(Reply(request, newId, ResponsePrefix + response.value));
    }
  }
}
