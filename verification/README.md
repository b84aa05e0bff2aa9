# Verified models of the agent runtime's stateful cores

This project models the parts of the repository that keep state, interleave, or translate one language into
another, and proves what they keep over every input, every run and every interleaving. `dafny verify
dfyconfig.toml` checks all of it.

* **Event streams.** The chunk-fed SSE parser, in its Python and TypeScript dialects (`SseText`, `SseParser`),
  compared with the line-by-line machine of section 9.2.6 of the WHATWG HTML Living Standard (`SseStandard`) and
  with an encoder (`SseRoundTrip`).
* **Schemas.** The JSON Schema to Zod compiler as it is (`ZodCompiler`), measured against JSON Schema draft
  2020-12 validity (`JsonSchema`, `CompilerCorrectness`, `CompilerLimits`) and, for every schema at all, against what
  the keyword that decides asks (`CompilerMeaning`); and the schema strippers (`Sanitizer`).
  The keywords the compiler never reads have no fixed meaning here: theorems hold for every interpretation of them.
* **The managed-agent engines.** Both backends as machines over an arbitrary sequence of session events
  (`AgentEvents`, `EngineV2`, `EngineV1`); what every run of the second one keeps (`EngineV2Properties`,
  `EngineV2Theorems`), what becomes of each tool's outcome in either (`EngineOutcomes`), what `run` makes of a run
  (`RunCollector`), and where the two agree (`EngineAgreement`). Tools, given name and arguments, posts, timeouts and
  the session log are oracles.
* **The provider-binding registry** (`BindingRegistry`, `BindingRegistrySafety`), **the gateway lifecycle**
  (`GatewayHost`, `GatewayHostSafety`, `GatewayHostLiveness`, `GatewayKeepalive`, `GatewayRegistrar`) and **the network
  broker** (`NetworkBroker`, `NetworkBrokerSafety`, `NetworkBrokerStatus`, `NetworkBrokerCap`). Each is a class whose
  methods are the code between two suspension points and are specified by one `Step` function; a run is any sequence
  of events, an event that cannot happen where it stands being skipped, so theorems about runs cover every
  interleaving.
* **The turn recorder** over the context window (`TurnRecorder`, `TurnRecorderSpec`, `TurnRecorderTheorems`), and
  **tool registries and fingerprints** (`ToolRegistry`, `Fingerprint`).

Where a promised property is false of the code, the code is kept, a concrete input or run shows the failure, and
the exact condition is proved, unless the last section says otherwise. The main findings of that kind:

* Cutting a text right after a CR CR LF changes what the SSE parser holds: chunk independence of the buffering
  holds for a text if and only if it contains none (`ChunkIndependenceExact`).
* The parser flushes an unterminated last block, which the standard discards, and keeps an empty event name, a
  byte order mark and a bare CR where the standard does not (`AgreesIffNothingFlushed`, `AgreesIffNoBareData` with
  the witness `EmptyEventDiffers`, `BomDiffers`, `BareCrDiffers`).
* `required` binds only on declared names whose schema a missing member fails: `z.unknown()` accepts `undefined`,
  so a required member with an untyped schema may be absent (`RequiredExact`, `UnenforcedOverAccepts`).
  `z.number().int()` refuses integers beyond 2^53 - 1 (`UnsafeIntegerOverReject`).
* A non-empty enum decides alone and its types are ignored, and `z.literal` reads an array as a list of alternatives:
  `EnumExactIff` says which enums are exact all the same, without types beside them those of scalars. An empty array
  among the values, or an empty list of branches, makes the compiler throw (`ThrowsIff`). The exact
  conditions for untyped object schemas, `oneOf`, `patternProperties` and `prefixItems` are `UntypedExactIff`,
  `OneOfExactIff`, `PatternAcceptsIff` and `PrefixAcceptsIff`, each with a witness beside it.
* Dropping a listed key can make a schema stricter, when it is the name of a declared property and
  `additionalProperties` survives (`StripNodeIff`, `ClosedStripIff`, with the witness `StripMetaCanTighten`), or when
  a `const` mentions it (`ConstRelaxedIff`).
* The binding key holds no fingerprint and the second backend always asks for version 1: the first binding of a key
  is final whatever the agent has become (`FirstBindingIsFinal`), although the comment beside the call
  (`managed_agent_backend_v2.py:405-406`) says one creation per fingerprint revision.
* A reconnect that passed its shutdown check wires a registrar nobody stops (`ShutdownIsFinalIff`).
* Stopping a PROVISIONING network reports it STOPPED and is then undone by the pending start, so the soft cap can be
  exceeded: by the number of instances brought back so and no more (`CapHolds`), and for every cap and every such
  number there is a run (`CapIsReached`; `StopIsUndone` and `CapExceeded` are the smallest ones).
* The second backend reads a result back from its reply, so an outcome that does not serialise is shown as an error
  and the result is lost, where the first one shows the result (`RoundMeans`, `RoundMeans1`).
* A NUL in a fingerprint field blurs it with its neighbour (`JoinDeterminesIff`, `NulCollides`).
* The module docstring of the second backend (`managed_agent_backend_v2.py:11-15`) says an unknown id ends the run;
  the code goes on (lines 570-631), and the model follows the code. Likewise `_await_pending_calls` describes
  draining the stream and does not: every covered round was shown to the caller before (`OutOfCycleUnreachable`).

## Model

| member | source | states |
|---|---|---|
| `SseParser.ParseBlockLoop` | python/copass-agent-router/src/copass_agent_router/sse.py:31-51 | The loop over a block's lines yields a frame exactly when a `data` field occurred: the last event name, the data values joined by LF |
| `SseParser.CutFrames` | python/copass-agent-router/src/copass_agent_router/sse.py:65-73 | The inner loop cuts every complete block off the buffer in order and leaves the text after the last separator |
| `SseParser.IterateSseFrames` | typescript/packages/agent-router/src/sse.ts:57-75 | The generator under any chunking yields the frames of the fed blocks, then the flush of the rest, in either dialect |
| `SseParser.FeedIsDrain` | python/copass-agent-router/src/copass_agent_router/sse.py:61-73 | On text without CR CR LF, feeding chunks one by one cuts the same blocks and keeps the same rest as feeding all of it at once |
| `SseParser.ChunkIndependenceExact` | python/copass-agent-router/src/copass_agent_router/sse.py:61-73 | Every chunking of a text leaves the parser in the same state if and only if the text has no CR CR LF |
| `SseParser.CutAfterCrCrLf` | python/copass-agent-router/src/copass_agent_router/sse.py:63-64 | Cutting right after a CR CR LF always changes what the parser holds |
| `SseParser.FramesIndependentOfChunks` | typescript/packages/agent-router/src/sse.ts:57-75 | On text without CR CR LF the frames do not depend on the chunking, in both dialects |
| `SseParser.DrainConserves` | python/copass-agent-router/src/copass_agent_router/sse.py:65-70 | Cutting blocks loses no character: blocks, separators and rest add up to the text |
| `SseStandard.RefinesStandard` | python/copass-agent-router/src/copass_agent_router/sse.py:31-78 | Under any chunking the parser yields exactly the events of section 9.2.6 of the WHATWG HTML Living Standard, then the frame of an unterminated rest |
| `SseStandard.AgreesIffNothingFlushed` | python/copass-agent-router/src/copass_agent_router/sse.py:74-78 | Parser and standard agree if and only if no line of the unterminated rest, trimmed in Python, is a data field |
| `SseStandard.AgreesIffNoBareData` | python/copass-agent-router/src/copass_agent_router/sse.py:38-48 | With no data left over they agree if and only if no complete block has a `data` line without a colon, or data while its last event field is empty |
| `SseStandard.AgreesOnTerminatedStreams` | python/copass-agent-router/src/copass_agent_router/sse.py:31-78 | They agree on every such stream that ends in a blank line |
| `SseStandard.FlushCompletes` | python/copass-agent-router/src/copass_agent_router/sse.py:74-78 | The flush of an unterminated rest yields what the standard makes of it once a blank line ends it (trimmed first in Python), and nothing if it is blank |
| `SseParser.TrimMeans` | python/copass-agent-router/src/copass_agent_router/sse.py:74-75 | Trimming takes whitespace off both ends, and all of it |
| `SseStandard.BareCrDiffers` | typescript/packages/agent-router/src/sse.ts:62 | A bare CR ends a line for the standard and not for the parser |
| `SseStandard.LinesEffect` | python/copass-agent-router/src/copass_agent_router/sse.py:31-51 | A block has data exactly if a line begins with `data:`, and ends up with an empty event name exactly if its last event field is empty |
| `SseStandard.BomDiffers` | python/copass-agent-router/src/copass_agent_router/sse.py:31-51 | A leading byte order mark in the text hides the first field from the parser |
| `SseRoundTrip.RoundTrip` | typescript/packages/agent-router/src/sse.ts:30-75 | Encoding any list of encodable frames and parsing it under any chunking returns the same list |
| `ZodCompiler.JsonSchemaToZod` | typescript/packages/management/src/json-schema-to-zod.ts:123-126 | A call returns the parser the correctness theorems are about, or throws exactly when a literal or union without alternatives would be built anywhere in it |
| `ZodCompiler.BuildShape` | typescript/packages/management/src/json-schema-to-zod.ts:67-73 | The loop that fills the shape record yields, member by member, the declared parser, optional unless required, and throws if building one does |
| `ZodCompiler.BuildForTypeLoop` | typescript/packages/management/src/json-schema-to-zod.ts:61-87 | The parser for one type name, with the catch-all that additionalProperties asks for |
| `CompilerMeaning.CompileMeans` | typescript/packages/management/src/json-schema-to-zod.ts:47-126 | For every schema and every input, a missing one included: the parser accepts exactly what the deciding keyword asks, be it a non-empty enum before oneOf before anyOf before the type names before members alone |
| `CompilerMeaning.EnumAlone` | typescript/packages/management/src/json-schema-to-zod.ts:90-91 | Whatever stands beside a non-empty enum of scalars, its types included, exactly the listed values are accepted |
| `CompilerMeaning.BranchesAlone` | typescript/packages/management/src/json-schema-to-zod.ts:93-103 | oneOf, or without one anyOf, accepts exactly what the parser of some branch does, whatever types and members stand beside it |
| `CompilerMeaning.ThrowsIff` | typescript/packages/management/src/json-schema-to-zod.ts:47-103 | For every schema: building throws exactly if an enum that decides lists an empty array or a list of branches that decides is empty, at some depth that is compiled |
| `CompilerCorrectness.Exact` | typescript/packages/management/src/json-schema-to-zod.ts:47-126 | In the fragment, on values whose integers are safe, the compiled parser accepts a value exactly when the schema validates it |
| `CompilerCorrectness.RequiredExact` | typescript/packages/management/src/json-schema-to-zod.ts:66-85 | On an object schema that accepts something, compilation is exact if and only if every required name is declared with a schema that a missing member fails |
| `CompilerCorrectness.MissingAccepted` | typescript/packages/management/src/json-schema-to-zod.ts:72 | A compiled parser accepts an absent member exactly when its schema is open: untyped all the way down one anyOf branch |
| `CompilerCorrectness.NeverOverRejects` | typescript/packages/management/src/json-schema-to-zod.ts:61-121 | In the wider fragment, whatever the ignored keywords mean, every valid value is accepted |
| `CompilerCorrectness.WideBuildable` | typescript/packages/management/src/json-schema-to-zod.ts:47-126 | In the wider fragment compiling never throws |
| `CompilerCorrectness.FragmentIsWide` | typescript/packages/management/src/json-schema-to-zod.ts:47-126 | The exact fragment lies within the wider one, so compiling it never throws either |
| `CompilerLimits.UntypedExactIff` | typescript/packages/management/src/json-schema-to-zod.ts:107-110 | An untyped schema with properties or additionalProperties refuses all but objects, and is exact on a value if and only if that is an object, or an array that its items refuse |
| `CompilerLimits.EnumExactIff` | typescript/packages/management/src/json-schema-to-zod.ts:47-59 | With or without types beside it, an enum is compiled exactly if and only if each value is a scalar of those types, or of none of them and then lists nothing new |
| `CompilerLimits.ArrayEnumAccepts` | typescript/packages/management/src/json-schema-to-zod.ts:50-57 | An array as the enum value accepts the scalars it lists and nothing else; an empty one cannot be built |
| `CompilerLimits.ArrayEnumOverReject` | typescript/packages/management/src/json-schema-to-zod.ts:50-57 | So an enum of the array of "a" accepts "a" and refuses that array |
| `CompilerLimits.PatternAcceptsIff` | typescript/packages/management/src/json-schema-to-zod.ts:74-83 | A valid object is accepted if and only if the members that only a pattern claims satisfy additionalProperties as well; under false there may be none |
| `CompilerLimits.PrefixAcceptsIff` | typescript/packages/management/src/json-schema-to-zod.ts:62-65 | A valid array is accepted if and only if the elements its prefix covers satisfy items as well |
| `CompilerLimits.UnsafeIntegerOverReject` | typescript/packages/management/src/json-schema-to-zod.ts:22-23 | An integer schema refuses 2^53 |
| `CompilerLimits.OneOfExactIff` | typescript/packages/management/src/json-schema-to-zod.ts:93-97 | oneOf over branches of the fragment is exact on a value if and only if no two branches validate it |
| `CompilerLimits.UnenforcedOverAccepts` | typescript/packages/management/src/json-schema-to-zod.ts:68-73 | Any accepted object stays accepted, and is not valid, without a required member that is undeclared or whose schema a missing member satisfies |
| `Sanitizer.StripJsonSchemaMetaLoop` | typescript/packages/management/src/specs.ts:110-123 | The loop that rebuilds objects member by member equals recursive stripping of the metadata keys |
| `Sanitizer.StripsExactly` | typescript/packages/management/src/specs.ts:102-123 | The strippers drop the five metadata names, and the sanitizer additionalProperties as well, and keep every other member and element in place, stripped itself |
| `Sanitizer.StripLeavesNone` | python/copass-anthropic-agents/src/copass_anthropic_agents/backends/_input_schema.py:43-61 | No listed key is left at any depth |
| `Sanitizer.StripIdentityIff` | python/copass-management/src/copass_management/specs.py:60-74 | Stripping changes nothing exactly when no listed key occurs at any depth |
| `Sanitizer.StrippersCompose` | python/copass-anthropic-agents/src/copass_anthropic_agents/backends/_input_schema.py:30-61 | Both strippers are idempotent, and either order of the two equals the sanitizer alone |
| `Sanitizer.StripRelaxes` | python/copass-anthropic-agents/src/copass_anthropic_agents/backends/_input_schema.py:43-61 | Any value valid before stripping is valid after, for schemas without oneOf, with enum values free of listed keys, no declared property of a listed name while additionalProperties survives, and surviving keywords outside the model relaxed where they stand |
| `Sanitizer.PlainIsRelaxed` | python/copass-anthropic-agents/src/copass_anthropic_agents/backends/_input_schema.py:43-61 | They are when each depends on its own value alone and that value has nothing to strip; so always for schemas without such keywords |
| `Sanitizer.ConstRelaxedIff` | python/copass-anthropic-agents/src/copass_anthropic_agents/backends/_input_schema.py:43-61 | Under the standard meaning of const, stripping a const schema relaxes it if and only if its value has nothing to strip |
| `Sanitizer.StripNodeIff` | typescript/packages/management/src/specs.ts:110-123 | A valid object stays valid if and only if the members whose declaration is stripped satisfy what is left of additionalProperties |
| `Sanitizer.ClosedStripIff` | typescript/packages/management/src/specs.ts:114-120 | Under additionalProperties: false a valid object stays valid if and only if it has no member with a listed name |
| `Sanitizer.SanitizeRelaxes` | python/copass-anthropic-agents/src/copass_anthropic_agents/backends/_input_schema.py:30-61 | The sanitizer relaxes whatever the properties are called |
| `Sanitizer.StripMetaRelaxes` | typescript/packages/management/src/specs.ts:102-123 | The metadata stripper relaxes under the same conditions |
| `Sanitizer.StripMetaCanTighten` | typescript/packages/management/src/specs.ts:114-120 | With a declared property of a listed name in a closed object it can refuse what was valid |
| `EngineV2.StreamImpl` | python/copass-anthropic-agents/src/copass_anthropic_agents/backends/managed_agent_backend_v2.py:477-818 | The streaming loop as statements ends with the action log of the run function, and raises exactly when that crashes |
| `EngineV2.RoundImpl` | python/copass-anthropic-agents/src/copass_anthropic_agents/backends/managed_agent_backend_v2.py:533-735 | A requires_action round as statements equals its specification: policy, unresolved round, late yields, results, guarded batch, outcome |
| `EngineV2.AnswerLoop` | python/copass-anthropic-agents/src/copass_anthropic_agents/backends/managed_agent_backend_v2.py:655-681 | The answer loop yields and replies once per call, in order, each reply's result being the tool's outcome (what it is, over every run: `EngineOutcomes.RoundMeans`) |
| `EngineV2.LateYieldLoop` | python/copass-anthropic-agents/src/copass_anthropic_agents/backends/managed_agent_backend_v2.py:638-651 | The late-yield loop shows each call not shown before, once |
| `EngineV2Properties.RunBuffer` | python/copass-anthropic-agents/src/copass_anthropic_agents/backends/managed_agent_backend_v2.py:512-525 | In every reachable state each buffered call is the latest tool use with its id and was shown to the caller |
| `EngineV2Theorems.EveryBatchAnswersItsRound` | python/copass-anthropic-agents/src/copass_anthropic_agents/backends/requires_action_cycle.py:125-187 | Over every run each posted batch holds exactly one reply for each requested id and for no other, in the envelope of the latest tool use with that id |
| `EngineV2Theorems.BatchesWithinPolicy` | python/copass-anthropic-agents/src/copass_anthropic_agents/backends/managed_agent_backend_v2.py:534-551 | Accepted batches never outnumber the rounds counted, nor these max_cycles |
| `EngineV2Theorems.AnswersWithinArrivals` | python/copass-anthropic-agents/src/copass_anthropic_agents/backends/managed_agent_backend_v2.py:729-734 | Over every run, raising or not, an id is answered at most as often as a tool use with it arrived |
| `EngineV2Theorems.OutOfCycleUnreachable` | python/copass-anthropic-agents/src/copass_anthropic_agents/backends/requires_action_cycle.py:170-176 | In every reachable state a covered round yields nothing late and no reply is refused as out of cycle |
| `EngineV2Theorems.ExactlyOneFinish` | python/copass-anthropic-agents/src/copass_anthropic_agents/backends/managed_agent_backend_v2.py:464-818 | Every run that does not raise yields exactly one finish, last |
| `EngineV2Theorems.RunShape` | python/copass-anthropic-agents/src/copass_anthropic_agents/backends/managed_agent_backend_v2.py:477-776 | A run has yielded a finish exactly if it finished, and then one, last |
| `EngineV2Theorems.ResultsMatchCalls` | python/copass-anthropic-agents/src/copass_anthropic_agents/backends/managed_agent_backend_v2.py:653-681 | Every result follows a call with its id and name, and no id ever has more results than calls |
| `EngineV2Theorems.TextConserved` | python/copass-anthropic-agents/src/copass_anthropic_agents/backends/managed_agent_backend_v2.py:481-487 | The text yielded is the text of all messages consumed, unresolved rounds included |
| `EngineV2Theorems.UsageConserved` | python/copass-anthropic-agents/src/copass_anthropic_agents/backends/managed_agent_backend_v2.py:778-792 | Each usage key is reported exactly if seen, as the sum over the model requests consumed |
| `EngineV2Theorems.StopsAtTerminal` | python/copass-anthropic-agents/src/copass_anthropic_agents/backends/managed_agent_backend_v2.py:533-776 | A run finishes at an event exactly if it is terminal, a round over the limit, or a covered round whose batch was refused; nothing after a terminal event is consumed |
| `EngineV2Theorems.CallsConserved` | python/copass-anthropic-agents/src/copass_anthropic_agents/backends/managed_agent_backend_v2.py:488-524 | Every run shows the tool uses it consumed, each once and in order, under their names, a custom one with its input |
| `EngineOutcomes.RoundMeans` | python/copass-anthropic-agents/src/copass_anthropic_agents/backends/managed_agent_backend_v2.py:526-705 | Every round of every run: interrupted over the limit, passed over if it times out or is not resolved, and otherwise one result per requested id that is what the tool returned for that name and input, wrapped unless an object, or an error text, and then one batch with the same payloads, and confirmations for server and MCP calls |
| `EngineOutcomes.RunBuffers` | python/copass-anthropic-agents/src/copass_anthropic_agents/backends/managed_agent_backend_v2.py:449-570 | While a run goes on its buffer holds exactly the ids used and not answered since, and it counts every round |
| `RunCollector.BoundedShape` | python/copass-anthropic-agents/src/copass_anthropic_agents/backends/managed_agent_backend_v2.py:315-364 | Unless the run raises before the deadline, the outer generator ends in a finish; there is a second one exactly if the deadline fires after the inner finish, and it is then the timeout's |
| `RunCollector.RunLoop` | python/copass-anthropic-agents/src/copass_anthropic_agents/backends/managed_agent_backend_v2.py:257-292 | The draining loop computes the collected result |
| `RunCollector.AttachLoop` | python/copass-anthropic-agents/src/copass_anthropic_agents/backends/managed_agent_backend_v2.py:275-280 | The inner loop gives a result to the first entry with its id and no result |
| `RunCollector.CollectPairs` | python/copass-anthropic-agents/src/copass_anthropic_agents/backends/managed_agent_backend_v2.py:266-280 | On any balanced event list the entries of an id are its calls in order, the k-th holding the k-th result |
| `RunCollector.ResultsReachTheirCalls` | python/copass-anthropic-agents/src/copass_anthropic_agents/backends/managed_agent_backend_v2.py:263-292 | So it is for every run |
| `RunCollector.RunLogsUses` | python/copass-anthropic-agents/src/copass_anthropic_agents/backends/managed_agent_backend_v2.py:266-273 | The call log of every run that does not raise is the list of the tool uses it consumed, in order, with names and arguments |
| `RunCollector.RunConserves` | python/copass-anthropic-agents/src/copass_anthropic_agents/backends/managed_agent_backend_v2.py:263-292 | The drained result of every run that does not raise has the text of all messages and the usage sums of all model requests consumed |
| `RunCollector.ReasonReported` | python/copass-anthropic-agents/src/copass_anthropic_agents/backends/managed_agent_backend_v2.py:281-292 | The reported reason is end_turn for a stream that just ends, and otherwise what the last event consumed says: the kind it stopped with, or unknown, terminated, error, over the limit, or a refused batch |
| `EngineV1.StreamLoop` | python/copass-anthropic-agents/src/copass_anthropic_agents/backends/managed_agent_backend.py:442-721 | The first backend's loop ends with the action log of its run function |
| `EngineV1.RoundLoop` | python/copass-anthropic-agents/src/copass_anthropic_agents/backends/managed_agent_backend.py:522-642 | A round: recovery of missing ids, execution in the order cited, batch, soft ending on any failure |
| `EngineV1.ExecuteLoop` | python/copass-anthropic-agents/src/copass_anthropic_agents/backends/managed_agent_backend.py:834-887 | Executing the cited ids yields one result each, in order (what each is, over every run: `EngineOutcomes.RoundMeans1`) |
| `EngineV1.RehydrateLoop` | python/copass-anthropic-agents/src/copass_anthropic_agents/backends/managed_agent_backend.py:761-804 | The recovery loop equals its specification |
| `EngineV1.RehydrateAdds` | python/copass-anthropic-agents/src/copass_anthropic_agents/backends/managed_agent_backend.py:761-804 | Recovery adds exactly the needed ids the session log lists a tool use for, each with a tool use of its id, and changes nothing else |
| `EngineOutcomes.RoundMeans1` | python/copass-anthropic-agents/src/copass_anthropic_agents/backends/managed_agent_backend.py:522-645 | Every round of every run: ended with an error if some id has neither an outstanding tool use nor one in the session log, and otherwise answered in the order cited, each id with the outcome of that tool use, whose payload is sent in one batch |
| `EngineOutcomes.RunBuffers1` | python/copass-anthropic-agents/src/copass_anthropic_agents/backends/managed_agent_backend.py:488-495 | While a run goes on its buffer holds the latest tool use of each id used and not cited since |
| `EngineOutcomes.CallsConserved1` | python/copass-anthropic-agents/src/copass_anthropic_agents/backends/managed_agent_backend.py:451-516 | It shows the tool uses it consumed, each once and in order, with their inputs |
| `EngineOutcomes.FinishMeans1` | python/copass-anthropic-agents/src/copass_anthropic_agents/backends/managed_agent_backend.py:646-680 | Any other event that ends a run gives the reason: the kind, or unknown, terminated, or error |
| `EngineAgreement.BackendsAgree` | python/copass-anthropic-agents/src/copass_anthropic_agents/backends/managed_agent_backend.py:442-721 | On traces orderly as far as consumed, within the limit and with smooth surroundings, both backends send the same batches and yield the same events, up to the finish the first one leaves out when the stream just ends |
| `EngineAgreement.RepeatedIdDiffers` | python/copass-anthropic-agents/src/copass_anthropic_agents/backends/managed_agent_backend.py:835-887 | A round citing an id twice makes the first backend run the tool twice and the second once |
| `EngineAgreement.UnknownIdDiffers` | python/copass-anthropic-agents/src/copass_anthropic_agents/backends/managed_agent_backend_v2.py:570-631 | A round citing an unknown id ends the first backend's run and not the second's |
| `BindingRegistry.InMemoryProviderBindingRegistry.GetBinding` | python/copass-anthropic-agents/src/copass_anthropic_agents/backends/in_memory_provider_binding_registry.py:75-91 | A stored binding is returned exactly if it is not older than asked for |
| `BindingRegistry.InMemoryProviderBindingRegistry.CreateLock` | python/copass-anthropic-agents/src/copass_anthropic_agents/backends/in_memory_provider_binding_registry.py:68-73 | Under the guard the key's lock is looked up again and created only if still missing |
| `BindingRegistry.InMemoryProviderBindingRegistry.CheckStored` | python/copass-anthropic-agents/src/copass_anthropic_agents/backends/in_memory_provider_binding_registry.py:105-111 | Under the lock a fresh binding is returned and the lock released; otherwise the call provisions, still holding it |
| `BindingRegistry.InMemoryProviderBindingRegistry.Store` | python/copass-anthropic-agents/src/copass_anthropic_agents/backends/in_memory_provider_binding_registry.py:113-126 | A successful provision is stored and returned, and the lock released |
| `BindingRegistrySafety.RunInv` | python/copass-anthropic-agents/src/copass_anthropic_agents/backends/in_memory_provider_binding_registry.py:58-126 | Every interleaving keeps: locks are unshared, calls past `_get_lock` have their key's lock, locks know their holders, and a provisioning call's key is still missing or stale |
| `BindingRegistrySafety.OneLockPerKey` | python/copass-anthropic-agents/src/copass_anthropic_agents/backends/in_memory_provider_binding_registry.py:58-73 | Calls have the same lock exactly when they ask for the same key, and at most one of them is inside the locked block |
| `BindingRegistrySafety.LocksStay` | python/copass-anthropic-agents/src/copass_anthropic_agents/backends/in_memory_provider_binding_registry.py:68-73 | A key's lock is its lock for good |
| `BindingRegistrySafety.NoDeadlock` | python/copass-anthropic-agents/src/copass_anthropic_agents/backends/in_memory_provider_binding_registry.py:93-126 | While any call has not ended some call can advance without anyone failing |
| `BindingRegistrySafety.AtMostOneProvision` | python/copass-anthropic-agents/src/copass_anthropic_agents/backends/in_memory_provider_binding_registry.py:105-126 | With honest provisions, however many raise, the versions stored for a key rise strictly: at most one success per key and version |
| `BindingRegistrySafety.VersionDropsIff` | python/copass-anthropic-agents/src/copass_anthropic_agents/backends/in_memory_provider_binding_registry.py:113-115 | A step lowers a stored version exactly when it stores an older provision result |
| `BindingRegistrySafety.VersionCanDrop` | python/copass-anthropic-agents/src/copass_anthropic_agents/backends/in_memory_provider_binding_registry.py:105-126 | Wherever a key has a binding and a free lock, one more call whose provision returns an older binding lowers the version stored |
| `BindingRegistrySafety.FirstCallStores` | python/copass-anthropic-agents/src/copass_anthropic_agents/backends/in_memory_provider_binding_registry.py:58-126 | The first call on a key leaves it with a lock, free, and the binding its provision returned |
| `BindingRegistrySafety.WholeCallStores` | python/copass-anthropic-agents/src/copass_anthropic_agents/backends/in_memory_provider_binding_registry.py:97-126 | A call that finds none, or an older one, stores and returns what its provision returned, and leaves the lock free |
| `BindingRegistrySafety.WholeCallReturns` | python/copass-anthropic-agents/src/copass_anthropic_agents/backends/in_memory_provider_binding_registry.py:97-108 | A call that finds a binding not older than asked for returns it and provisions nothing |
| `BindingRegistrySafety.ReturnsOlderIff` | python/copass-anthropic-agents/src/copass_anthropic_agents/backends/in_memory_provider_binding_registry.py:109-126 | A call returns an older binding than asked for exactly when its own provision gave it one |
| `BindingRegistrySafety.VersionsNeverDecrease` | python/copass-anthropic-agents/src/copass_anthropic_agents/backends/in_memory_provider_binding_registry.py:105-126 | With honest provisions stored versions never decrease over a run |
| `BindingRegistrySafety.LoserReReads` | python/copass-anthropic-agents/src/copass_anthropic_agents/backends/in_memory_provider_binding_registry.py:105-114 | A waiter returns what the winner stored exactly if it is not too old for it, and provisions again otherwise |
| `BindingRegistrySafety.FailureHandsOn` | python/copass-anthropic-agents/src/copass_anthropic_agents/backends/in_memory_provider_binding_registry.py:105-115 | A failed provision changes nothing stored and hands the lock on |
| `BindingRegistrySafety.FirstBindingIsFinal` | python/copass-anthropic-agents/src/copass_anthropic_agents/backends/managed_agent_backend_v2.py:400-419 | With one version throughout every call for a key, early or late, returns the first binding stored |
| `GatewayHost.OsHost.Reconnect` | typescript/packages/olane-agents/src/os-host.ts:275-307 | A trigger is dropped while shutting down or reconnecting, and otherwise starts a body that stops the old registrar first |
| `GatewayHost.OsHost.OnRegistered` | typescript/packages/olane-agents/src/os-host.ts:323-341 | A registration wires a new pair, resets the attempts and ends the body, or waits the backoff |
| `GatewayHost.OsHost.ShutDown` | typescript/packages/olane-agents/src/os-host.ts:404-424 | The hook raises the flag and stops the current keepalive and registrar |
| `GatewayHostSafety.RunInv` | typescript/packages/olane-agents/src/os-host.ts:260-401 | Every interleaving with stale callbacks keeps: at most one body, exactly while the flag is set; nothing runs but the current pair; past its teardown a body has nothing wired |
| `GatewayHostSafety.SingleFlight` | typescript/packages/olane-agents/src/os-host.ts:275-346 | At most one body runs and at most one registrar and one keepalive are unstopped |
| `GatewayHostSafety.WiredAfterStopped` | typescript/packages/olane-agents/src/os-host.ts:289-307 | A pair is wired only when every earlier registrar and keepalive is stopped |
| `GatewayHostSafety.StoppedStays` | typescript/packages/olane-agents/src/gateway-registrar.ts:291-294 | A stopped registrar stays stopped |
| `GatewayHostSafety.BackoffDoubles` | typescript/packages/olane-agents/src/os-host.ts:330-340 | The failed attempts of each cycle wait 1, 2, 4, 8, 16 and 32 seconds and then a minute each |
| `GatewayHostLiveness.Boots` | typescript/packages/olane-agents/src/os-host.ts:389-401 | Booting wires the first pair if the gateway takes the registration, runs with nothing wired otherwise, and fails if the gateway cannot be looked up |
| `GatewayHostLiveness.FiringStarts` | typescript/packages/olane-agents/src/os-host.ts:275-300 | From every reachable state without a cycle or a shutdown a firing starts exactly one body, with every registrar stopped; any other firing changes nothing (`FiringDropped`) |
| `GatewayHostLiveness.CycleReconnects` | typescript/packages/olane-agents/src/os-host.ts:283-328 | Such a cycle, through any number of attempts that fail, ends on success with one new pair wired, everything older stopped, the backoff reset and the host ready for the next firing |
| `GatewayHostLiveness.CycleGivesUp` | typescript/packages/olane-agents/src/os-host.ts:313-321 | If it learns that there is no gateway it ends with nothing wired |
| `GatewayHostLiveness.ShutdownEndsCycle` | typescript/packages/olane-agents/src/os-host.ts:310-348 | After shutdown a body ends at its next look at the flag |
| `GatewayHostSafety.ShutdownIsFinalIff` | typescript/packages/olane-agents/src/os-host.ts:311-341 | Shutdown stops everything for good exactly when no body is past its check then |
| `GatewayHostSafety.NoCycleAfterShutdown` | typescript/packages/olane-agents/src/os-host.ts:276 | After shutdown no new cycle ever starts, whatever fires and however the run goes on |
| `GatewayKeepalive.Keepalive.GotResponse` | typescript/packages/olane-agents/src/auto-resolve-gateway.ts:387-413 | A response settles the tick: gone is reported once and ends the loop, failure counts, success resets |
| `GatewayKeepalive.AlarmsCountRuns` | typescript/packages/olane-agents/src/auto-resolve-gateway.ts:415-426 | The alarm goes off once for every maximal run of failed ticks that reaches the threshold; never for a threshold below one |
| `GatewayKeepalive.GoneEnds` | typescript/packages/olane-agents/src/auto-resolve-gateway.ts:387-402 | Gone is reported at most once, exactly when some tick was answered so, and nothing follows it |
| `GatewayKeepalive.StopSendsAtMostOne` | typescript/packages/olane-agents/src/auto-resolve-gateway.ts:430-455 | After an unsubscribe at most one more request is sent, by a tick that was waiting for its token |
| `GatewayKeepalive.KeepsTicking` | typescript/packages/olane-agents/src/auto-resolve-gateway.ts:345-443 | A loop nobody stops keeps ticking: every tick settles once, in order, and sends one request if it gets a token |
| `GatewayKeepalive.StoppedExits` | typescript/packages/olane-agents/src/auto-resolve-gateway.ts:430-456 | A stopped loop is over once the tick in flight has its token and its answer |
| `GatewayRegistrar.RegisteredGateway.Complete` | typescript/packages/olane-agents/src/gateway-registrar.ts:258-287 | A completed heartbeat resets or counts, and signals the first breach only |
| `GatewayRegistrar.FiresAtFirstStreak` | typescript/packages/olane-agents/src/gateway-registrar.ts:232-289 | The reconnect signal has gone out exactly when the completions so far contain threshold failures in a row, and at most once |
| `GatewayRegistrar.UnregisterOnce` | typescript/packages/olane-agents/src/gateway-registrar.ts:291-302 | Unregister sends one request however often it is called, and no heartbeat begins after it |
| `GatewayRegistrar.HeartbeatsConserved` | typescript/packages/olane-agents/src/gateway-registrar.ts:237-290 | Every tick of the timer before the unregistration sends a heartbeat, none after, and each one sent is in flight or has settled once |
| `GatewayRegistrar.Reregisters` | typescript/packages/olane-agents/src/gateway-registrar.ts:251-263 | A daemon the gateway does not know registers again within the same tick, which settles with that |
| `NetworkBroker.NetworkBrokerNode.ActiveCount` | typescript/packages/olane-agents/src/network-broker-node.ts:215-226 | The loop counts the instances in a non-terminal status |
| `NetworkBroker.NetworkBrokerNode.ToolStart` | typescript/packages/olane-agents/src/network-broker-node.ts:285-344 | A start is admitted exactly if its parameters are acceptable and the count is below the cap, and then reserves its instance |
| `NetworkBroker.NetworkBrokerNode.SandboxCreated` | typescript/packages/olane-agents/src/network-broker-node.ts:369-385 | A created sandbox is parked at once; one without an id is killed |
| `NetworkBroker.NetworkBrokerNode.ToolStop` | typescript/packages/olane-agents/src/network-broker-node.ts:461-488 | A stop marks the shared instance and releases its handle, or finishes at once when there is none |
| `NetworkBroker.NetworkBrokerNode.StopReturned` | typescript/packages/olane-agents/src/network-broker-node.ts:482-493 | A settled stop puts the instance it saw back, STOPPED, without a handle; a failed one leaves it FAILED (over every run: `NetworkBrokerStatus.StopSettles`) |
| `NetworkBrokerSafety.RunInv` | typescript/packages/olane-agents/src/network-broker-node.ts:310-493 | Every interleaving keeps: instances are not shared between ids, a pending start shares its instance with the record and is PROVISIONING exactly if never stopped, handles belong to their ids |
| `NetworkBrokerSafety.CapHolds` | typescript/packages/olane-agents/src/network-broker-node.ts:310-344 | PROVISIONING and RUNNING instances exceed the cap by at most those of them that were stopped while PROVISIONING, all of which are RUNNING |
| `NetworkBrokerCap.CapIsReached` | typescript/packages/olane-agents/src/network-broker-node.ts:310-418 | For every cap of at least one and every n, some run with n such stops occupies n more than the cap |
| `NetworkBrokerSafety.RunningFromProvisioning` | typescript/packages/olane-agents/src/network-broker-node.ts:396-405 | RUNNING is entered only when a start ends, from PROVISIONING exactly if the instance was not stopped in between |
| `NetworkBrokerSafety.NoHandleLost` | typescript/packages/olane-agents/src/network-broker-node.ts:377-416 | Every sandbox or shell tool is still held by its record or had its kill or unmount called |
| `NetworkBrokerSafety.RunningIsAlive` | typescript/packages/olane-agents/src/network-broker-node.ts:396-405 | A RUNNING instance never stopped while PROVISIONING holds a handle that nobody released |
| `NetworkBrokerSafety.StopIsUndone` | typescript/packages/olane-agents/src/network-broker-node.ts:471-489 | Stopping a PROVISIONING instance without a sandbox reports it STOPPED, and the pending start makes it RUNNING |
| `NetworkBrokerStatus.StopCompletes` | typescript/packages/olane-agents/src/network-broker-node.ts:471-493 | Stopping a RUNNING instance reports STOPPING and releases its handle; whatever happens to others meanwhile, it is then STOPPED without a handle, or FAILED with it if the release threw |
| `NetworkBrokerStatus.StopSettles` | typescript/packages/olane-agents/src/network-broker-node.ts:482-493 | A settled stop reports STOPPED without a handle whatever happened since; a failed one FAILED, unless the pending start replaced the instance |
| `NetworkBrokerStatus.StopMarks` | typescript/packages/olane-agents/src/network-broker-node.ts:471-480 | A stop reports STOPPING and releases the handle, or STOPPED at once when there is none |
| `NetworkBrokerStatus.SettledStatus` | typescript/packages/olane-agents/src/network-broker-node.ts:310-493 | In every interleaving an instance with neither start nor stop pending is RUNNING, STOPPED or FAILED, and STOPPED only without a handle |
| `NetworkBrokerStatus.StartReserves` | typescript/packages/olane-agents/src/network-broker-node.ts:285-344 | A well-formed start below the cap reserves a PROVISIONING instance of its backend; any other changes nothing |
| `NetworkBrokerStatus.SandboxMoves` | typescript/packages/olane-agents/src/network-broker-node.ts:361-385 | A sandbox not created leaves FAILED; one created is parked, and killed if it has no id |
| `NetworkBrokerStatus.BootMoves` | typescript/packages/olane-agents/src/network-broker-node.ts:386-416 | A sandbox that comes up makes the instance RUNNING with it; one that does not is killed, and the start ends FAILED (`KillMoves`) |
| `NetworkBrokerStatus.MountMoves` | typescript/packages/olane-agents/src/network-broker-node.ts:421-456 | A local start ends RUNNING with its shell tool, or FAILED |
| `NetworkBrokerStatus.AttachLists` | typescript/packages/olane-agents/src/network-broker-node.ts:552-557 | Attaching lists an agent last unless it is listed, and leaves the status alone |
| `NetworkBrokerSafety.CapExceeded` | typescript/packages/olane-agents/src/network-broker-node.ts:310-313 | So two instances run under a cap of one |
| `NetworkBrokerSafety.AgentsDistinct` | typescript/packages/olane-agents/src/network-broker-node.ts:552-557 | No instance ever lists an agent twice |
| `NetworkBrokerSafety.AgentsSurviveStart` | typescript/packages/olane-agents/src/network-broker-node.ts:396-405 | Agents attached while PROVISIONING are still attached when the start ends, either way |
| `NetworkBrokerSafety.DetachUndoesAttach` | typescript/packages/olane-agents/src/network-broker-node.ts:552-583 | Detaching undoes attaching a new agent, and attaching twice is attaching once |
| `TurnRecorder.CopassTurnRecorder.constructor` | python/copass-context-agents/src/copass_context_agents/turn_recorder.py:116-123 | A recorder starts knowing the keys of the turns its window has |
| `TurnRecorder.CopassTurnRecorder.RecordUserTurn` | python/copass-context-agents/src/copass_context_agents/turn_recorder.py:127-139 | A user turn completes the assistant's and is recorded after it (which turns, over every history: `TurnRecorderSpec.RecorderRefines`) |
| `TurnRecorder.CopassTurnRecorder.RecordEvent` | python/copass-context-agents/src/copass_context_agents/turn_recorder.py:152-177 | Deltas are buffered, a finish completes the turn, tool events become system turns if asked for |
| `TurnRecorder.CopassTurnRecorder.Flush` | python/copass-context-agents/src/copass_context_agents/turn_recorder.py:202-209 | Every scheduled push runs, in order |
| `TurnRecorder.CopassTurnRecorder.RecordStream` | python/copass-context-agents/src/copass_context_agents/turn_recorder.py:179-200 | A stream is recorded and yielded unchanged, and its pushes are awaited |
| `TurnRecorder.ContextWindow.AddTurn` | python/copass-core/src/copass_core/context_window.py:89 | A turn is appended to the window |
| `TurnRecorderSpec.RecorderRefines` | python/copass-context-agents/src/copass_context_agents/turn_recorder.py:116-264 | In every reachable state window and pending pushes are the initial window and the turns the history calls for, but for duplicates: the user's contents under the user role and speaker, the assistant's trimmed text since its last completion under its role and author, prefixed if asked for, and tool events as system turns; turns are duplicates if their roles and the digests of their first 500 characters are equal |
| `TurnRecorderTheorems.CutsDoNotMatter` | python/copass-context-agents/src/copass_context_agents/turn_recorder.py:141-146 | How text is cut into deltas anywhere in a history changes neither what is recorded nor what is remembered |
| `TurnRecorderTheorems.ReplayAddsMissing` | python/copass-context-agents/src/copass_context_agents/turn_recorder.py:120-123 | A recorder rebuilt on the window and given the same history records exactly the turns whose push had not begun |
| `TurnRecorderTheorems.ReplayAddsNothingIff` | python/copass-context-agents/src/copass_context_agents/turn_recorder.py:202-209 | It adds nothing exactly if the pushes had been awaited |
| `TurnRecorderTheorems.DedupDistinct` | python/copass-context-agents/src/copass_context_agents/turn_recorder.py:234-240 | No two recorded turns share a key, and none has a key known before |
| `TurnRecorderTheorems.StreamLeavesTail` | python/copass-context-agents/src/copass_context_agents/turn_recorder.py:195-200 | After a recorded stream an explicit flush would add a turn exactly if the text since the last finish is not blank and its key is new |
| `TurnRecorderTheorems.FinishedStreamLeavesNothing` | python/copass-context-agents/src/copass_context_agents/turn_recorder.py:157-158 | A stream that ends in a finish leaves no text behind |
| `ToolRegistry.AgentToolRegistry.Extend` | python/copass-core-agents/src/copass_core_agents/tool_registry.py:33-36 | Adding many tools overrides by name, the last one counting |
| `ToolRegistry.AgentToolRegistry.ListSpecs` | python/copass-core-agents/src/copass_core_agents/tool_registry.py:52-54 | The listing is the registered specs in ascending order of names |
| `ToolRegistry.BuildTools` | python/copass-core-agents/src/copass_core_agents/base_agent.py:104-148 | Colliding names are an error exactly under that policy; otherwise the merge is the losing side overridden by the winning one |
| `ToolRegistry.OrderDoesNotMatter` | python/copass-core-agents/src/copass_core_agents/tool_registry.py:52-64 | Tools of distinct names added in any order give the same registry and listing |
| `Fingerprint.BuildParts` | python/copass-anthropic-agents/src/copass_anthropic_agents/backends/managed_agent_backend_v2.py:1069-1085 | The loop builds the fixed parts and the three parts of every listed spec |
| `Fingerprint.TextSpells` | python/copass-anthropic-agents/src/copass_anthropic_agents/backends/managed_agent_backend_v2.py:1069-1086 | The hash is taken of the model, the prompt, the four settings and, for every tool in ascending order of names, its name, description and schema, with a NUL between any two |
| `Ordering.LexLtMeans` | python/copass-core-agents/src/copass_core_agents/tool_registry.py:52-54 | The order of names: a proper prefix first, otherwise the smaller character where two names first differ |
| `Fingerprint.JoinInjective` | python/copass-anthropic-agents/src/copass_anthropic_agents/backends/managed_agent_backend_v2.py:1086 | Lists of NUL-free parts, of any lengths, are told apart by their joined text |
| `Fingerprint.JoinDeterminesIff` | python/copass-anthropic-agents/src/copass_anthropic_agents/backends/managed_agent_backend_v2.py:1086 | Two or more parts are recoverable from their joined text exactly if none holds a NUL |
| `Fingerprint.TextDetermines` | python/copass-anthropic-agents/src/copass_anthropic_agents/backends/managed_agent_backend_v2.py:1069-1086 | With NUL-free fields, and JSON texts that tell the registered schemas apart, the text determines model, prompt, every flag and the spec under every name |
| `Fingerprint.NulCollides` | python/copass-anthropic-agents/src/copass_anthropic_agents/backends/managed_agent_backend_v2.py:1072-1073 | A NUL in the model blurs it with the prompt |
| `Fingerprint.TextIsCanonical` | python/copass-anthropic-agents/src/copass_anthropic_agents/backends/managed_agent_backend_v2.py:1080-1086 | Equivalent registries have one text, whatever the order of registration |

## Left out

* Libraries not in the repository (zod, the Anthropic and e2b SDKs, libp2p, asyncio, setInterval) are modelled by
  their documented behaviour: zod 4 parsers by what they accept and by which of them cannot be built (literals and
  unions without alternatives), network calls by arbitrary outcomes.
* Decoding bytes to text: the SSE model starts from text chunks (the TypeScript reader's decoder already drops a
  leading byte order mark). Turning frames into agent events is not modelled.
* `describe()` and descriptions, which do not change what a parser accepts; a parser's transformed output.
* Schemas whose `properties` is a string or an array, `__proto__` as a member name, enum values with a member
  `toString`, and repeated keys: JSON objects are finite maps, so member order is not captured either.
* The meaning of `$ref`, `not`, `if`, `unevaluated*` and every other keyword the compiler does not read: it is an
  arbitrary function of the keyword, the schema object it stands in and the instance, constrained only where stripping
  is concerned, and there only for the keywords that occur in the schema stripped.
* JSON text: results of tools travel as values with a flag for failed serialisation; the fingerprint's `json.dumps`
  is a function assumed to tell the schemas at hand apart where that matters, and SHA-256 is not applied to its text.
* Python's `repr` in messages is written with plain single quotes; names that need escaping read differently.
* The backends' set-up (agent, environment and session creation, the first user message), cleanup, logging and the
  `session_id` on finish events. The wait for a round is an oracle that may time out; a session log that fails to
  load is one that ends early.
* A registrar without a reconnect callback, which never signals, and a keepalive without `fetch`, which never runs.
* Wall-clock time: deadlines, ticks and sleeps are events or oracles; delays are recorded as numbers.
* Lock queues are unordered: any waiter may be next, so fairness is not modelled, and safety holds for every order.
* Records and instance objects of the broker are numbered in an explicit heap instead of Dafny objects, which keeps
  the aliasing between a record, a pending start and pending stops. Addresses, ports, metadata, listing and agent
  discovery are left out, as are repeated random ids.
* The recorder's digest is an arbitrary function of the first 500 characters, so collisions are
  covered; pushes to the remote data source, speakers and participants are left out. An empty author stands for none.
* `frameToAgentEvent`, the HTTP clients and resources, authentication, deployment, the CLI, the scaffolder, spec
  loading and the retry helper: they would only add easy members.
- SseStandard.RefinesStandard: is stated for streams without a bare CR, a leading byte order mark or a line that is just `event`, on which parser and standard can differ (`BareCrDiffers` and `BomDiffers` are witnesses); which streams of these kinds still agree is not characterised.
- EngineAgreement.BackendsAgree: asks for rounds in strictly ascending order of outstanding ids, since the two backends run tools in different orders otherwise; which traces outside that condition still agree is not characterised.
- CompilerCorrectness.NeverOverRejects: one way only, as it is about over-rejection; over-acceptance has its own lemmas (`RequiredExact`, `OneOfExactIff`, `UnenforcedOverAccepts`), and what the keywords the compiler ignores would refuse depends on their meaning.
- GatewayRegistrar.UnregisterOnce: says nothing about the re-registration that a heartbeat already in flight may still send after an unregister, since the code allows it.
