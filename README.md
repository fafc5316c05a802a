# A2A sample agents, lights plugin and agent-card printer, in Dafny

This project models the hand-written logic of an Agent-to-Agent (A2A) sample repository and proves properties of that model. The logic has three parts.

- **Four agent adapters** (`Echo`, `SKCompletion`, `CopilotStudio`, `AiFoundry`).
  - Each adapter checks a cancellation flag, then takes the text of the request's first text part.
  - It hands that text to a backend and builds the reply: role Agent, a fresh message id, the request's context id, and one text part.
  - It also publishes a fixed capability card whose URL is the one it was asked for.
  - `Attach` points the task manager's two handler slots at the adapter.
  - Shared values live in module `A2A`: messages, parts, cards, faults, the outcome of a handler, and the chunk-accumulation loop.
- **The lights plugin** (`AIPlugins`). It holds a table of three mutable light records. It can reset the table, return it, or switch one light by id.
- **The agent-card printer** (`AgentCardPrinter`). It renders any object as an "identity card" text block:
  - a rule, a title and a rule;
  - the well-known scalar members;
  - one section per structured member;
  - a raw JSON view;
  - a closing rule.

## How the sources become Dafny

- An adapter with fields is a class. The echo adapter holds nothing, so its handlers are module-level functions.
- A backend is modelled by what it returns. A streamed answer is a parameter `stream: Stream`: the chunks the backend yields (a chunk's `Content` may be null), and the exception it throws part-way, if any. The `invoked` out-parameter says whether the backend was asked at all.
- An async handler's result is an `Outcome`: cancelled, completed, or thrown with a `Fault`. The source blocks on `.Result`, which rethrows an exception from the handler, or from the backend it streams from, wrapped in an aggregate exception. The model writes this as `Aggregate(inner)`.
- A cancellation token is a `bool` checked once. A `Guid` message id is a parameter `newId`.
- The printer sees objects through `Reflection.Value`. This is a tagged value whose records list their public properties in declaration order.
- JSON serialisation is a `Serializer`: two given functions, indented and compact, that return `None` where the real serialiser throws.
- Every printer writer appends to a `StringBuilder` whose state is the list of lines appended so far. Its text is `Emitted(lines)`: each line followed by the newline.
- Each writer method is proved to append exactly the lines of a pure function, for example `CollectionLines`. The layout properties are lemmas about those functions.
- `ResetLights` and `ChangeState` update light objects in place. They are proved against the pure table functions `ResetAll` and `SetLight`.

Three behaviours of the code are worth stating on their own, and the model keeps them as the code has them.

- A request with no text part fails with the "no elements" exception of `First()`. No adapter checks for an empty message first.
- A fault is rethrown through `.Result`, wrapped in an aggregate exception. That holds both for a fault raised by the adapter's own checks and for an exception the backend throws while streaming. No adapter turns it into a Failed task outcome, and a backend fault drops the partial answer.
- The card printer can throw on a skill whose operation list holds a null item (see Findings).

## Model

| member | source | states |
|---|---|---|
| A2A.FirstTextPart | server/A2A_01_EchoAgent/EchoAgent.cs:25 | None exactly when the message has no text part; otherwise the text of the first text part, with no text part before it |
| A2A.Reply | server/A2A_01_EchoAgent/EchoAgent.cs:30-36 | the reply has role Agent, the fresh id, the request's context id and exactly one text part |
| A2A.StandardCard | server/A2A_01_EchoAgent/EchoAgent.cs:49-65 | the card has the given name, description and URL; version "1.0.0"; input and output modes ["text"]; streaming on; push notifications off; no skills |
| A2A.AccumulateContents | server/A2A_02_SKOpenAIChatCompletion/SKCompletionAgent.cs:127-141 | the loop's answer is the in-order concatenation of the chunk texts, starting from "", with a null content adding nothing |
| A2A.AccumulateStream | server/A2A_02_SKOpenAIChatCompletion/SKCompletionAgent.cs:127-141 | the answer is the chunk concatenation exactly when the stream ends normally; a stream that throws yields its exception instead |
| A2A.ConcatContentsAppend | server/A2A_02_SKOpenAIChatCompletion/SKCompletionAgent.cs:137-141 | accumulating two runs of chunks is concatenating their answers, so the answer does not depend on how the stream was cut |
| A2A.ConcatContentsInOrder | server/A2A_03_CopilotStudioAgent/sk_for_copilotstudio.cs:121-125 | each chunk's text appears exactly once, after all earlier chunks and before all later ones |
| Echo.GenericChatWithAgent | server/A2A_01_EchoAgent/EchoAgent.cs:68-80 | the echo responder returns its question unchanged |
| Echo.ProcessMessage | server/A2A_01_EchoAgent/EchoAgent.cs:17-39 | cancelled exactly when the flag is set; "no elements" when there is no text part; otherwise an Agent reply with the new id, the request's context id and the request's text unchanged as its only part |
| Echo.EchoRoundTrip | server/A2A_01_EchoAgent/EchoAgent.cs:25-35 | reading the reply's first text part gives back the request's first text part |
| Echo.GetAgentCard | server/A2A_01_EchoAgent/EchoAgent.cs:41-66 | cancelled exactly when the flag is set; otherwise the standard card named "Echo Agent", at the given URL |
| Echo.Attach | server/A2A_01_EchoAgent/EchoAgent.cs:11-15 | both task-manager slots hold the echo adapter afterwards, whatever they held before |
| SKCompletion.SKCompletionAgent.constructor | server/A2A_02_SKOpenAIChatCompletion/SKCompletionAgent.cs:111-117 | initialisation leaves a chat-completion agent in `_agent` |
| SKCompletion.SKCompletionAgent.Attach | server/A2A_02_SKOpenAIChatCompletion/SKCompletionAgent.cs:24-28 | both slots hold this adapter |
| SKCompletion.SKCompletionAgent.GetAgentCard | server/A2A_02_SKOpenAIChatCompletion/SKCompletionAgent.cs:30-55 | cancelled exactly when the flag is set; otherwise the standard card named "SK Agent", at the given URL |
| SKCompletion.SKCompletionAgent.GenericChatWithAgent | server/A2A_02_SKOpenAIChatCompletion/SKCompletionAgent.cs:125-150 | the backend is asked exactly when the agent is a chat-completion agent, and the answer is the chunk concatenation, or the backend's exception when its stream throws; anything else, null included, throws the argument exception |
| SKCompletion.SKCompletionAgent.ProcessMessage | server/A2A_02_SKOpenAIChatCompletion/SKCompletionAgent.cs:56-78 | cancellation first, with no backend call; no text part throws "no elements"; a wrong agent type, or a backend that throws, gives that fault wrapped; otherwise the reply's only part is "Response:\n" followed by the chunk concatenation |
| CopilotStudio.SkForCopilotStudio.constructor | server/A2A_03_CopilotStudioAgent/sk_for_copilotstudio.cs:14-22 | the name and description fields take their initial values, and `_agent` holds a Copilot Studio agent |
| CopilotStudio.SkForCopilotStudio.Attach | server/A2A_03_CopilotStudioAgent/sk_for_copilotstudio.cs:24-28 | both slots hold this adapter |
| CopilotStudio.SkForCopilotStudio.GetAgentCard | server/A2A_03_CopilotStudioAgent/sk_for_copilotstudio.cs:29-54 | cancelled exactly when the flag is set; otherwise a standard card whose name and description are the adapter's fields |
| CopilotStudio.SkForCopilotStudio.GenericChatWithAgent | server/A2A_03_CopilotStudioAgent/sk_for_copilotstudio.cs:105-130 | the agent type is checked before the question; a null or whitespace-only question throws, with no backend call; otherwise the answer is the chunk concatenation, or the backend's exception when its stream throws |
| CopilotStudio.SkForCopilotStudio.ProcessMessage | server/A2A_03_CopilotStudioAgent/sk_for_copilotstudio.cs:55-77 | cancellation, then no text part, then a wrapped type, blank-question or backend fault; otherwise an Agent reply whose only part is the unprefixed answer |
| CopilotStudio.ConstructedAdapterRejectsBlank | server/A2A_03_CopilotStudioAgent/sk_for_copilotstudio.cs:114-117 | a constructed adapter calls the backend exactly when the question has a non-whitespace character |
| AiFoundry.AiFoundryAgent.constructor | server/A2A_04_AiFoundryAgent/AiFoundryAgent.cs:19 | the plain constructor leaves `_agent` unset |
| AiFoundry.AiFoundryAgent.InitializeAgent | server/A2A_04_AiFoundryAgent/AiFoundryAgent.cs:127-143 | a null or blank id creates the named definition; otherwise the one fetched for the id is used; either way `_agent` is set |
| AiFoundry.AiFoundryAgent.Create | server/A2A_04_AiFoundryAgent/AiFoundryAgent.cs:21-26 | a created adapter holds the created agent definition |
| AiFoundry.AiFoundryAgent.Attach | server/A2A_04_AiFoundryAgent/AiFoundryAgent.cs:27-31 | both slots hold this adapter |
| AiFoundry.AiFoundryAgent.GetAgentCard | server/A2A_04_AiFoundryAgent/AiFoundryAgent.cs:32-57 | name and description come from the agent, falling back to "Generic AI Agent" and "Generic AI agent Description" when there is no agent or it has none; the rest of the card is standard |
| AiFoundry.AiFoundryAgent.GenericChatWithAgent | server/A2A_04_AiFoundryAgent/AiFoundryAgent.cs:82-101 | with an agent, the answer is the chunk concatenation, or the backend's exception when its stream throws; without one, it throws a null reference |
| AiFoundry.AiFoundryAgent.ProcessMessage | server/A2A_04_AiFoundryAgent/AiFoundryAgent.cs:58-80 | cancellation, then no text part, then the backend, which is asked exactly when an agent exists; a backend exception is rethrown wrapped; otherwise the reply's only part is the answer |
| AiFoundry.CreatedAdapterAnswers | server/A2A_04_AiFoundryAgent/AiFoundryAgent.cs:21-26 | an adapter from `CreateAsync` answers every uncancelled request with a text part unless the backend throws, in which case that exception is rethrown wrapped; its card names the created agent |
| AiFoundry.ConstructedAdapterFaults | server/A2A_04_AiFoundryAgent/AiFoundryAgent.cs:88-92 | an adapter from the plain constructor throws the wrapped null reference on every such request, and its card carries the fallback name |
| AIPlugins.LightModel.constructor | server/A2A_02_ChatCompletion/LightsPlugin.cs:60-70 | a record with the given id, name and state |
| AIPlugins.InitialTableShape | server/A2A_02_ChatCompletion/LightsPlugin.cs:13-18 | three lights with ids 1, 2, 3, all off; an id is found exactly when it is 1, 2 or 3 |
| AIPlugins.LightsPlugin.constructor | server/A2A_02_ChatCompletion/LightsPlugin.cs:13-18 | the table holds "Table Lamp", "Porch light" and "Chandelier", all off, as three distinct records |
| AIPlugins.FindLight | server/A2A_02_ChatCompletion/LightsPlugin.cs:44 | None exactly when no light has the id; otherwise the index of the first light with it |
| AIPlugins.ResetAll | server/A2A_02_ChatCompletion/LightsPlugin.cs:26 | same length; every light off; ids and names kept |
| AIPlugins.SetLight | server/A2A_02_ChatCompletion/LightsPlugin.cs:44-52 | an unknown id leaves the table unchanged; otherwise only the first match changes, to the new state; ids, names and length are kept |
| AIPlugins.SetLightIdempotent | server/A2A_02_ChatCompletion/LightsPlugin.cs:52 | switching a light twice to the same state is switching it once |
| AIPlugins.ResetAllIdempotent | server/A2A_02_ChatCompletion/LightsPlugin.cs:26 | resetting twice is resetting once |
| AIPlugins.LightsPlugin.ResetLights | server/A2A_02_ChatCompletion/LightsPlugin.cs:23-28 | updates the records in place to ResetAll of the old table, and returns the same list |
| AIPlugins.LightsPlugin.GetLights | server/A2A_02_ChatCompletion/LightsPlugin.cs:33-37 | returns the list itself and changes nothing |
| AIPlugins.LightsPlugin.ChangeState | server/A2A_02_ChatCompletion/LightsPlugin.cs:42-56 | null exactly for an unknown id; otherwise the first matching record; the table becomes SetLight of the old table |
| Reflection.FindProp | client/A2AClient01Native/AgentCardPrinter.cs:360-361 | no value exactly when no property has the name; otherwise the value of the first property with that name |
| Reflection.GetProp | client/A2AClient01Native/AgentCardPrinter.cs:360-361 | a value found is that of one of the object's public properties with the name; a scalar, list or dictionary has no such property (the converse is GetPropFindsPresent) |
| Reflection.GetPropFindsPresent | client/A2AClient01Native/AgentCardPrinter.cs:360-361 | nothing is found exactly when no public property has the name; what is found is the value of the first property with that name |
| Reflection.PairProps | client/A2AClient01Native/AgentCardPrinter.cs:258 | a key/value pair has exactly the properties `Key` and `Value`, so looking up `Name` on it finds nothing |
| Reflection.PairText | client/A2AClient01Native/AgentCardPrinter.cs:259 | a key/value pair prints as "[key, value]", a null key or value written as nothing; the pair ("a", 1) prints "[a, 1]" |
| Reflection.EnumItems | client/A2AClient01Native/AgentCardPrinter.cs:255-257 | enumerating a list gives its elements; enumerating a dictionary gives one key/value pair per entry, in order; anything else gives nothing |
| AgentCardPrinter.Repeat | client/A2AClient01Native/AgentCardPrinter.cs:27 | n copies of the character |
| AgentCardPrinter.IsScalar | client/A2AClient01Native/AgentCardPrinter.cs:363-375 | a scalar is never enumerated and lists no properties; every non-scalar has a ToString() text |
| AgentCardPrinter.IsNullOrEmpty | client/A2AClient01Native/AgentCardPrinter.cs:377-387 | a list or dictionary is empty exactly when enumerating it yields no item |
| AgentCardPrinter.IsNullOrEmptyExactly | client/A2AClient01Native/AgentCardPrinter.cs:377-387 | true exactly for null, a string of whitespace characters only, and an enumerable with no items |
| AgentCardPrinter.FormatScalar | client/A2AClient01Native/AgentCardPrinter.cs:278-290 | a non-blank string prints as itself; an integer prints its decimal text; any other non-null value that is not a string or bool prints its ToString(), never the "(null)" fallback |
| AgentCardPrinter.FormatScalarNeverBlank | client/A2AClient01Native/AgentCardPrinter.cs:278-290 | null prints "(null)"; a blank string prints "(empty)"; any other string prints as itself, and only such a string does; a bool prints "true"/"false"; none of these prints blank |
| AgentCardPrinter.FormatAuto | client/A2AClient01Native/AgentCardPrinter.cs:308-334 | with no or an empty indent, or for a scalar, the indent makes no difference |
| AgentCardPrinter.FormatAutoIndented | client/A2AClient01Native/AgentCardPrinter.cs:316-331 | with an indent, the text starts with a newline and every line carries the indent; stripping the indents gives back the unindented JSON or dump |
| AgentCardPrinter.InsertByNameCorrect | client/A2AClient01Native/AgentCardPrinter.cs:339-340 | inserting into a name-sorted list keeps it sorted and adds exactly the new property |
| AgentCardPrinter.SortByNameCorrect | client/A2AClient01Native/AgentCardPrinter.cs:339-340 | the dump's order is sorted by name and a permutation of the object's properties |
| AgentCardPrinter.ReflectiveDump | client/A2AClient01Native/AgentCardPrinter.cs:336-358 | the dump starts with "{ " and ends with " }"; an object without properties dumps as "{  }" |
| AgentCardPrinter.ReflectiveDumpShape | client/A2AClient01Native/AgentCardPrinter.cs:336-358 | the dump lists the properties sorted by name, one entry each, and no other entries |
| AgentCardPrinter.SerializeSafe | client/A2AClient01Native/AgentCardPrinter.cs:292-306 | the compact JSON when serialisation succeeds; otherwise the dump, which starts with "{ " |
| AgentCardPrinter.FormatScalarOrJson | client/A2AClient01Native/AgentCardPrinter.cs:275-276 | a scalar prints exactly as FormatAuto prints it; anything else goes through SerializeSafe |
| AgentCardPrinter.NonBlank | client/A2AClient01Native/AgentCardPrinter.cs:261 | keeps only non-blank names, all from the input; empty exactly when every name is blank |
| AgentCardPrinter.NonBlankFilter | client/A2AClient01Native/AgentCardPrinter.cs:261 | the filter works name by name: filtering `a + b` is filtering `a`, then `b`; one name is kept exactly when it is not blank; so every non-blank name is kept, in order |
| AgentCardPrinter.FormatSkill | client/A2AClient01Native/AgentCardPrinter.cs:243-273 | null prints "(null)"; any other skill's line starts with its head |
| AgentCardPrinter.FormatSkillShape | client/A2AClient01Native/AgentCardPrinter.cs:243-273 | null prints "(null)"; the head is Name " — " Description when both are non-blank, Name alone or Description alone when only that one is, and the skill's ToString() when neither is; the suffix is " \| Ops: " followed by the non-blank operation names joined by ", ", and is present exactly when some operation name is non-blank |
| AgentCardPrinter.DictionaryOpsNamed | client/A2AClient01Native/AgentCardPrinter.cs:255-260 | when the operation list is a dictionary, each operation is named by its pair text "[key, value]" |
| AgentCardPrinter.NullOperationListed | client/A2AClient01Native/AgentCardPrinter.cs:257-260 | in the corrected printer, a null operation is listed as "(op)", so the Ops suffix appears |
| AgentCardPrinter.NullOperationThrows | client/A2AClient01Native/AgentCardPrinter.cs:257-258 | as written, a skill with a null operation makes FormatSkill throw a null reference |
| AgentCardPrinter.NullOperationNamed | client/A2AClient01Native/AgentCardPrinter.cs:257-260 | the corrected printer renders that skill as "deploy \| Ops: (op)" |
| AgentCardPrinter.OpNamesAsWritten | client/A2AClient01Native/AgentCardPrinter.cs:257-260 | as written, the selector throws a null reference exactly when some operation is null; otherwise it names every operation, in order |
| AgentCardPrinter.FormatSkillAsWritten | client/A2AClient01Native/AgentCardPrinter.cs:243-273 | as written, FormatSkill throws a null reference exactly on a non-null skill with a null operation; otherwise it gives the same text as the corrected FormatSkill |
| AgentCardPrinter.IfPresentLines | client/A2AClient01Native/AgentCardPrinter.cs:109-118 | nothing exactly when the member is absent, null, blank or an empty collection; otherwise the one line `Name: value` |
| AgentCardPrinter.WriteIfPresent | client/A2AClient01Native/AgentCardPrinter.cs:109-118 | appends exactly IfPresentLines |
| AgentCardPrinter.WriteSectionHeader | client/A2AClient01Native/AgentCardPrinter.cs:103-107 | appends an empty line and "• title:" |
| AgentCardPrinter.MemberLinesWritten | client/A2AClient01Native/AgentCardPrinter.cs:143-168 | a preferred member writes lines exactly when it is present and not empty; a shown collection member has items and writes one line per item |
| AgentCardPrinter.MemberItemLinesAt | client/A2AClient01Native/AgentCardPrinter.cs:157-161 | item k of a nested collection is written as `  Member[k]: value`, numbered from 0 |
| AgentCardPrinter.WroteAnyExactly | client/A2AClient01Native/AgentCardPrinter.cs:142-150 | the `wroteAny` flag is set exactly when one of the preferred members is present and not empty |
| AgentCardPrinter.WroteAnyIffLines | client/A2AClient01Native/AgentCardPrinter.cs:142-170 | the `wroteAny` flag is set exactly when the preferred members wrote at least one line |
| AgentCardPrinter.NestedFallback | client/A2AClient01Native/AgentCardPrinter.cs:170-174 | when no preferred member is shown, the section is exactly the indented whole-value view |
| AgentCardPrinter.WriteMember | client/A2AClient01Native/AgentCardPrinter.cs:145-167 | returns whether the member is shown, and appends exactly MemberLines |
| AgentCardPrinter.WritePreferredMembers | client/A2AClient01Native/AgentCardPrinter.cs:142-168 | returns `wroteAny`, and appends the lines of every preferred member in order |
| AgentCardPrinter.WriteNestedIfPresent | client/A2AClient01Native/AgentCardPrinter.cs:120-180 | appends exactly NestedLines |
| AgentCardPrinter.NumberedLinesAt | client/A2AClient01Native/AgentCardPrinter.cs:196-201 | collection item k is written as `  [k] text`, numbered from 0 in enumeration order |
| AgentCardPrinter.CollectionNumbering | client/A2AClient01Native/AgentCardPrinter.cs:182-208 | a present collection writes one numbered line per item, in order, or exactly "  (empty)" when it has no items |
| AgentCardPrinter.WriteCollectionIfPresent | client/A2AClient01Native/AgentCardPrinter.cs:182-208 | appends exactly CollectionLines |
| AgentCardPrinter.EntryLinesAt | client/A2AClient01Native/AgentCardPrinter.cs:229-234 | one `  key: value` line per entry, in enumeration order |
| AgentCardPrinter.DictionaryEntries | client/A2AClient01Native/AgentCardPrinter.cs:210-241 | a present dictionary writes "  (empty)" when it has no entries, otherwise one line per entry in order; a null key shows as "(null)" |
| AgentCardPrinter.WriteDictionaryIfPresent | client/A2AClient01Native/AgentCardPrinter.cs:210-241 | appends exactly DictionaryLines |
| AgentCardPrinter.RenderNullCard | client/A2AClient01Native/AgentCardPrinter.cs:29-33 | a null card renders as the single warning line and nothing else |
| AgentCardPrinter.RenderLayout | client/A2AClient01Native/AgentCardPrinter.cs:27-97 | any other card starts with rule, title, rule and ends with the rule; the rule is 70 '─' characters |
| AgentCardPrinter.WriteSimpleMembers | client/A2AClient01Native/AgentCardPrinter.cs:48-55 | appends the eight well-known members' lines in source order |
| AgentCardPrinter.WriteComplexMembers | client/A2AClient01Native/AgentCardPrinter.cs:61-83 | appends the seven sections, each header followed by its writer's lines |
| AgentCardPrinter.RenderAgentIdentityCard | client/A2AClient01Native/AgentCardPrinter.cs:24-99 | returns exactly CardText: the warning line for a null card; otherwise the rule, title and rule, then the body, then the raw view (JSON, or the dump when serialisation throws) and the closing rule |

## Left out

- The `Program.cs` files, ASP.NET routing, HTML forms, console I/O and the A2A client and card resolver. They are SDK wiring whose source is not part of this model.
- `LLMSettings`. It is environment and secret loading.
- Backend setup: the kernel, Copilot Studio client, Foundry clients and Bing tool. Model invocation is also left out; what a backend streams back, including an exception it throws part-way, is a parameter.
- The Foundry adapter's initialisation service calls. `InitializeAgent` takes the fetched definition as a parameter.
- `Guid.NewGuid()` ids are a parameter, and nothing is claimed about their uniqueness.
- Tasks, `await` and real cancellation-token behaviour are not modelled. The token is a flag checked once.
- `Console` writes.
- Echo adapter: the responder's answer is computed and discarded, as in the source. The reply uses the request text.
- Reflection.GetProp: matches property names exactly. The source's lookup ignores case.
- Reflection.PublicProps: only records and key/value pairs have properties. The public properties of a list or dictionary object, such as `Count`, are not listed in a dump.
- AiFoundry.CreatedAgent: the service is taken to return a definition with exactly the requested name and description.
- AgentCardPrinter.ReflectiveDump: a property getter that throws (shown as `<unavailable>`) is not modelled. Every getter returns a value.
- AgentCardPrinter.SortByName: sorts by ordinal code-point order. The source's `OrderBy` uses the current culture's string comparison.
- AgentCardPrinter.FormatScalar: `DateTime` "o" formatting, `Uri` and floating-point text are not computed. These scalars carry their printed text (`OtherScalar`).
- The serialiser options (indentation and ignoring nulls) are not modelled. JSON output is whatever the given `Serializer` returns.
- `Environment.NewLine` is taken as "\n".
- AgentCardPrinter.WriteMember: the source writes an `(empty)` marker after a nested collection's items. That marker is unreachable, because a shown member is never an empty collection (MemberLinesWritten), so it is left out.
- AgentCardPrinter.FormatSkill: the source falls back to `(skill)` when the head is null. That is unreachable, because a non-null object's `ToString()` is never null in the model.
- The StringBuilder is modelled only through `AppendLine`, as the list of lines appended.
- AgentCardPrinter.RenderAgentIdentityCard: renders with the corrected FormatSkill (see Findings). As written, the source throws on a skill with a null operation.

## Findings

| source | as written | input that shows it | evidently intended | confidence | as-written member | corrected member |
|---|---|---|---|---|---|---|
| client/A2AClient01Native/AgentCardPrinter.cs:257-260 | the operation selector calls `GetProp(o, "Name")` first, and `GetProp` calls `o.GetType()`, so a null operation throws a null reference exception; the `?? "(op)"` fallback can never be reached and the whole card render fails | a skill `{ Name = "deploy", Operations = [null] }` | a null operation is listed as "(op)": "deploy \| Ops: (op)" | not executed; high | AgentCardPrinter.NullOperationThrows | AgentCardPrinter.NullOperationNamed |
