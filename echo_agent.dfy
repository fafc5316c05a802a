/** The echo adapter: replies with the text it was sent. It holds no state,
    so its handlers are functions and `Attach` is the one method. */
module Echo {
  import opened Wrappers
  import opened A2A

  /** The echo responder: the answer is the question, unchanged. */
  function GenericChatWithAgent(question: Option<string>): (answer: Option<string>)
    ensures answer == question
  {
    question
  }

  /** The message handler. The responder's answer is computed and discarded:
      the reply carries the request's own text. */
  function ProcessMessage(request: MessageSendParams, cancelled: bool, newId: string): (r: Outcome<AgentMessage>)
    ensures cancelled <==> r.Canceled?
    ensures !cancelled && FirstTextPart(request.message.parts).None? ==> r == Threw(NoElements)
    ensures r.Completed? ==>
              && FirstTextPart(request.message.parts).Some?
              && r.value.role == Agent
              && r.value.messageId == newId
              && r.value.contextId == request.message.contextId
              && r.value.parts == [TextPart(FirstTextPart(request.message.parts).value)]
  {
    if cancelled then Canceled
    else
      match FirstTextPart(request.message.parts)
      case None => Threw(NoElements)
      case Some(messageText) =>
        var _ := GenericChatWithAgent(Some(messageText));
        Completed(Reply(request, newId, messageText))
  }

  /** Echo round trip: reading the reply the way the adapter reads a request
      gives back the request's text. */
  lemma EchoRoundTrip(request: MessageSendParams, newId: string)
    requires FirstTextPart(request.message.parts).Some?
    ensures ProcessMessage(request, false, newId).Completed?
    ensures FirstTextPart(ProcessMessage(request, false, newId).value.parts)
         == FirstTextPart(request.message.parts)
  {
    var t := FirstTextPart(request.message.parts).value;
    assert FirstTextPart([TextPart(t)]) == Some(t);
  }

  /** The card handler. */
  function GetAgentCard(agentUrl: string, cancelled: bool): (r: Outcome<AgentCard>)
    ensures cancelled <==> r.Canceled?
    ensures !cancelled ==> r.Completed?
    ensures r.Completed? ==>
              && r.value.name == "Echo Agent"
              && r.value.description == "Echoes messages back to the user"
              && r.value == StandardCard(r.value.name, r.value.description, agentUrl)
  {
    if cancelled then Canceled
    else Completed(StandardCard("Echo Agent", "Echoes messages back to the user", agentUrl))
  }

  /** Points both task-manager slots at this adapter. */
  method Attach(taskManager: TaskManager)
    modifies taskManager
    ensures taskManager.onMessageReceived == Some(EchoAdapter)
    ensures taskManager.onAgentCardQuery == Some(EchoAdapter)
  {
    taskManager.onMessageReceived := Some(EchoAdapter);
    taskManager.onAgentCardQuery := Some(EchoAdapter);
  }
}
