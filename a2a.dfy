/** The Agent-to-Agent protocol values the adapters exchange (messages,
    parts, capability cards), the fault a handler can end in, the task
    manager's two handler slots, and the in-order accumulation of a
    backend's streamed answer, which three of the adapters share. */
module A2A {
  import opened Wrappers

  datatype MessageRole = User | Agent

  /** A message part; only text parts are read by the adapters. */
  datatype Part = TextPart(text: string) | FilePart(uri: string) | DataPart(json: string)

  datatype AgentMessage = AgentMessage(
    role: MessageRole,
    messageId: string,
    contextId: Option<string>,
    parts: seq<Part>)

  datatype MessageSendParams = MessageSendParams(message: AgentMessage)

  datatype AgentCapabilities = AgentCapabilities(streaming: bool, pushNotifications: bool)

  datatype AgentSkill = AgentSkill(id: string, name: string, description: string)

  datatype AgentCard = AgentCard(
    name: string,
    description: string,
    url: string,
    version: string,
    defaultInputModes: seq<string>,
    defaultOutputModes: seq<string>,
    capabilities: AgentCapabilities,
    skills: seq<AgentSkill>)

  /** The exceptions a handler can raise. `Aggregate` is what `.Result`
      throws when the awaited task faulted; `Service` is an exception a
      backend raises while it streams. */
  datatype Fault =
    | InvalidOperation(message: string)
    | Argument(message: string, paramName: Option<string>)
    | NullReference
    | Aggregate(inner: Fault)
    | Service(message: string)

  /** How a handler's task ends: cancelled, with a value, or by throwing. */
  datatype Outcome<T> = Canceled | Completed(value: T) | Threw(fault: Fault)

  /** What Enumerable.First() throws on an empty sequence. */
  const NoElements: Fault := InvalidOperation("Sequence contains no elements")

  /** The text of the first text part (`Parts.OfType<TextPart>().First().Text`),
      or None when the message has no text part. */
  function FirstTextPart(parts: seq<Part>): (r: Option<string>)
    ensures r.None? <==> forall i :: 0 <= i < |parts| ==> !parts[i].TextPart?
    ensures r.Some? ==> exists i :: 0 <= i < |parts| && parts[i] == TextPart(r.value)
                          && forall j :: 0 <= j < i ==> !parts[j].TextPart?
  {
    if parts == [] then None
    else if parts[0].TextPart? then Some(parts[0].text)
    else
      var r := FirstTextPart(parts[1..]);
      assert forall i :: 1 <= i < |parts| ==> parts[i] == parts[1..][i - 1];
      r
  }

  /** The reply every adapter builds: role Agent, the given fresh id, the
      request's context id and one text part. */
  function Reply(request: MessageSendParams, messageId: string, text: string): (m: AgentMessage)
    ensures m.role == Agent && m.messageId == messageId
    ensures m.contextId == request.message.contextId
    ensures m.parts == [TextPart(text)]
  {
    AgentMessage(Agent, messageId, request.message.contextId, [TextPart(text)])
  }

  /** The card shape all four adapters publish; only name and description vary. */
  function StandardCard(name: string, description: string, agentUrl: string): (c: AgentCard)
    ensures c.name == name && c.description == description && c.url == agentUrl
    ensures c.version == "1.0.0"
    ensures c.defaultInputModes == ["text"] && c.defaultOutputModes == ["text"]
    ensures c.capabilities == AgentCapabilities(true, false)
    ensures c.skills == []
  {
    AgentCard(name, description, agentUrl, "1.0.0", ["text"], ["text"],
              AgentCapabilities(streaming := true, pushNotifications := false), [])
  }

  /** `s += content`: a null content appends nothing. */
  function ContentText(content: Option<string>): string {
    content.GetOr("")
  }

  /** The texts of the chunks, in order, starting from "". */
  function ConcatContents(chunks: seq<Option<string>>): string
  {
    if chunks == [] then ""
    else ConcatContents(chunks[..|chunks| - 1]) + ContentText(chunks[|chunks| - 1])
  }

  /** Accumulating a stream split in two is accumulating each half: the
      answer does not depend on how the backend cut it into chunks. */
  lemma {:induction false} ConcatContentsAppend(a: seq<Option<string>>, b: seq<Option<string>>)
    ensures ConcatContents(a + b) == ConcatContents(a) + ConcatContents(b)
  {
    if b != [] {
      var b' := b[..|b| - 1];
      assert (a + b)[..|a + b| - 1] == a + b';
      ConcatContentsAppend(a, b');
    } else {
      assert a + b == a;
    }
  }

  /** The answer is the first chunk's text followed by the rest's. */
  lemma {:induction false} ConcatContentsCons(c: Option<string>, rest: seq<Option<string>>)
    ensures ConcatContents([c] + rest) == ContentText(c) + ConcatContents(rest)
  {
    ConcatContentsAppend([c], rest);
    assert [c][..0] == [];
  }

  /** Chunk k's text sits in the answer right after the texts of the chunks
      before it and right before those after it: nothing is reordered,
      dropped or repeated. */
  lemma {:induction false} ConcatContentsInOrder(chunks: seq<Option<string>>, k: nat)
    requires k < |chunks|
    ensures ConcatContents(chunks)
         == ConcatContents(chunks[..k]) + ContentText(chunks[k]) + ConcatContents(chunks[k + 1..])
  {
    var pre, c, post := chunks[..k], chunks[k], chunks[k + 1..];
    assert chunks == pre + ([c] + post);
    ConcatContentsAppend(pre, [c] + post);
    ConcatContentsCons(c, post);
  }

  /** What a backend's streaming call gives: the chunks it yields, then
      either the normal end of the stream or the exception it throws. */
  datatype Stream = Stream(chunks: seq<Option<string>>, fault: Option<Fault>)

  /** The accumulation over a whole stream: the concatenated answer when
      the stream ends normally; when it throws, that exception, and the
      partial answer is lost. */
  method AccumulateStream(stream: Stream) returns (r: Result<string, Fault>)
    ensures r.Success? <==> stream.fault.None?
    ensures r.Success? ==> r.value == ConcatContents(stream.chunks)
    ensures r.Failure? ==> r.error == stream.fault.value
  {
    var response := AccumulateContents(stream.chunks);
    if stream.fault.Some? {
      return Failure(stream.fault.value);
    }
    return Success(response);
  }

  /** The accumulation loop `agent_response = ""; foreach chunk:
      agent_response += chunk.Content`. */
  method AccumulateContents(chunks: seq<Option<string>>) returns (response: string)
    ensures response == ConcatContents(chunks)
  {
    response := "";
    var i := 0;
    while i < |chunks|
      invariant 0 <= i <= |chunks|
      invariant response == ConcatContents(chunks[..i])
    {
      assert chunks[..i + 1][..i] == chunks[..i];
      response := response + ContentText(chunks[i]);
      i := i + 1;
    }
    assert chunks[..|chunks|] == chunks;
  }

  /** The adapter whose handler a task-manager slot holds. */
  datatype AdapterTag = EchoAdapter | SKCompletionAdapter | CopilotStudioAdapter | AiFoundryAdapter

  /** The A2A task manager as the adapters see it: two handler slots that
      `Attach` assigns. */
  class TaskManager {
    var onMessageReceived: Option<AdapterTag>
    var onAgentCardQuery: Option<AdapterTag>

    constructor()
      ensures onMessageReceived == None && onAgentCardQuery == None
    {
      onMessageReceived := None;
      onAgentCardQuery := None;
    }

  }
}
