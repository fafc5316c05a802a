/** The Azure AI Foundry adapter: streams the question to an AzureAIAgent
    held in its `_agent` field and replies with the accumulated answer.
    The field is only set by asynchronous initialisation, so an adapter
    made with the plain constructor has none. */
module AiFoundry {
  import opened Wrappers
  import opened Text
  import opened A2A

  /** The parts of an AzureAIAgent the adapter reads: its (nullable) name
      and description. */
  datatype AzureAIAgent = AzureAIAgent(name: Option<string>, description: Option<string>)

  const FallbackName: string := "Generic AI Agent"
  const FallbackDescription: string := "Generic AI agent Description"

  /** The agent definition created when no existing agent id is given. */
  const CreatedAgent: AzureAIAgent :=
    AzureAIAgent(Some("AI Foundry Agent with SK"), Some("AI Foundry Agent using Semantic Kernel"))

  class AiFoundryAgent {
    /** `_agent`; None until initialisation has run. */
    var agent: Option<AzureAIAgent>

    /** The plain constructor leaves `_agent` null. */
    constructor()
      ensures agent == None
    {
      agent := None;
    }

    /** Creates the agent definition when `agentId` is null or blank,
        otherwise uses the `existing` definition the service returns for that
        id; either way `_agent` is set. */
    method InitializeAgent(agentId: Option<string>, existing: AzureAIAgent)
      modifies this
      ensures agent == Some(if IsNullOrWhiteSpace(agentId) then CreatedAgent else existing)
    {
      if IsNullOrWhiteSpace(agentId) {
        agent := Some(CreatedAgent);
      } else {
        agent := Some(existing);
      }
    }

    /** `CreateAsync`: construct, then initialise with no agent id, which
        creates the definition. */
    static method Create() returns (a: AiFoundryAgent)
      ensures fresh(a)
      ensures a.agent == Some(CreatedAgent)
    {
      a := new AiFoundryAgent();
      a.InitializeAgent(None, CreatedAgent);
    }

    /** Points both task-manager slots at this adapter. */
    method Attach(taskManager: TaskManager)
      modifies taskManager
      ensures taskManager.onMessageReceived == Some(AiFoundryAdapter)
      ensures taskManager.onAgentCardQuery == Some(AiFoundryAdapter)
    {
      taskManager.onMessageReceived := Some(AiFoundryAdapter);
      taskManager.onAgentCardQuery := Some(AiFoundryAdapter);
    }

    /** The card handler: name and description come from the agent, with
        fixed fallbacks when there is no agent or it has none. */
    function GetAgentCard(agentUrl: string, cancelled: bool): (r: Outcome<AgentCard>)
      reads this
      ensures cancelled <==> r.Canceled?
      ensures !cancelled ==> r.Completed?
      ensures r.Completed? ==> r.value == StandardCard(r.value.name, r.value.description, agentUrl)
      ensures r.Completed? && agent.None? ==>
                r.value.name == FallbackName && r.value.description == FallbackDescription
      ensures r.Completed? && agent.Some? ==>
                && (agent.value.name.Some? ==> r.value.name == agent.value.name.value)
                && (agent.value.name.None? ==> r.value.name == FallbackName)
                && (agent.value.description.Some? ==> r.value.description == agent.value.description.value)
                && (agent.value.description.None? ==> r.value.description == FallbackDescription)
    {
      if cancelled then Canceled
      else
        var name := match agent case Some(a) => a.name.GetOr(FallbackName) case None => FallbackName;
        var description := match agent case Some(a) => a.description.GetOr(FallbackDescription) case None => FallbackDescription;
        Completed(StandardCard(name, description, agentUrl))
    }

    /** Streams the question to `_agent` and accumulates the answer. The
        argument it is called with is ignored; `_agent` is dereferenced
        without a check, so without initialisation this faults. An
        exception the backend throws while streaming is passed on. */
    method GenericChatWithAgent(question: Option<string>, stream: Stream)
      returns (r: Result<string, Fault>, invoked: bool)
      ensures invoked <==> agent.Some?
      ensures invoked && stream.fault.None? ==> r == Success(ConcatContents(stream.chunks))
      ensures invoked && stream.fault.Some? ==> r == Failure(stream.fault.value)
      ensures !invoked ==> r == Failure(NullReference)
    {
      if agent.None? {
        return Failure(NullReference), false;
      }
      r := AccumulateStream(stream);
      invoked := true;
    }

    /** The message handler: cancellation first, then the first text part,
        then the backend, whose fault `.Result` rethrows wrapped. */
    method ProcessMessage(request: MessageSendParams, cancelled: bool, newId: string, stream: Stream)
      returns (r: Outcome<AgentMessage>, invoked: bool)
      ensures cancelled ==> r == Canceled && !invoked
      ensures !cancelled && FirstTextPart(request.message.parts).None? ==> r == Threw(NoElements) && !invoked
      ensures invoked <==> !cancelled && FirstTextPart(request.message.parts).Some? && agent.Some?
      ensures !cancelled && FirstTextPart(request.message.parts).Some? && agent.None? ==>
                r == Threw(Aggregate(NullReference))
      ensures invoked && stream.fault.Some? ==> r == Threw(Aggregate(stream.fault.value))
      ensures invoked && stream.fault.None? ==>
                && r.Completed?
                && r.value.role == Agent
                && r.value.messageId == newId
                && r.value.contextId == request.message.contextId
                && r.value.parts == [TextPart(ConcatContents(stream.chunks))]
    {
      if cancelled {
        return Canceled, false;
      }
      var messageText := FirstTextPart(request.message.parts);
      if messageText.None? {
        return Threw(NoElements), false;
      }
      var response;
      response, invoked := GenericChatWithAgent(messageText, stream);
      if response.Failure? {
        return Threw(Aggregate(response.error)), invoked;
      }
      r := Completed(Reply(request, newId, response.value));
    }
  }

  /** An adapter made by `CreateAsync` answers every uncancelled request
      that has a text part, unless the backend throws, and its card names
      the created agent. */
  method CreatedAdapterAnswers(request: MessageSendParams, newId: string, stream: Stream, agentUrl: string)
    returns (r: Outcome<AgentMessage>, card: Outcome<AgentCard>)
    requires FirstTextPart(request.message.parts).Some?
    ensures stream.fault.None? ==> r.Completed? && r.value.parts == [TextPart(ConcatContents(stream.chunks))]
    ensures stream.fault.Some? ==> r == Threw(Aggregate(stream.fault.value))
    ensures card.Completed? && card.value.name == "AI Foundry Agent with SK"
  {
    var adapter := AiFoundryAgent.Create();
    var invoked;
    r, invoked := adapter.ProcessMessage(request, false, newId, stream);
    card := adapter.GetAgentCard(agentUrl, false);
  }

  /** An adapter made by the plain constructor faults on every uncancelled
      request that has a text part, and its card uses the fallback name. */
  method ConstructedAdapterFaults(request: MessageSendParams, newId: string, stream: Stream, agentUrl: string)
    returns (r: Outcome<AgentMessage>, card: Outcome<AgentCard>)
    requires FirstTextPart(request.message.parts).Some?
    ensures r == Threw(Aggregate(NullReference))
    ensures card.Completed? && card.value.name == FallbackName
  {
    var adapter := new AiFoundryAgent();
    var invoked;
    r, invoked := adapter.ProcessMessage(request, false, newId, stream);
    card := adapter.GetAgentCard(agentUrl, false);
  }
}
