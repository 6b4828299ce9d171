# agente-groq: routing, entity and tool-call pipeline in Dafny

This project models the deterministic core of the agente-groq assistant:

- the per-conversation **context store** (`ContextManager`, in three copies);
- the **entity extractor** (`extract_entities`, in two copies);
- the two versions of the **orchestrator**. They filter agents by role, match the router model's answer against agent names, gather entities, dispatch to an agent, turn exceptions into error replies, and fall back to a general chat answer;
- the **agent tool-call pipeline** (`AgentBase.handle`) and the older stand-alone `responder` of `agent.py`;
- the **start-up wiring**, which splits the roster into the router agent and the user agents;
- the **presentation rules** of the web front end's `cards.js`: card dispatch, tool icons, the weather-text parser and weather icon, status classes, list headers and subscriber fields.

The language model, the tool backend, Python's `re` engine and `json.loads` are parameters (oracles):

- the router's answer, the agent's assistant message and the general model's answer are inputs;
- the regex engine is a function `(pattern, text, ignoreCase) -> Option<match>`;
- the backend is a function `(tool, args) -> Delivered(json) | Failed`;
- an agent's `handle`, seen from an orchestrator, is a function returning a reply or the text of a raised exception.

Python dicts iterate in insertion order, and "first match wins" depends on that order. So the pattern map and the reference map are sequences of pairs, and the pattern names are required to be distinct, as JSON object keys are.

The JavaScript regular expressions of `parseWeatherString` are written out over character runs. The proofs show that:

- the greedy reading is the only split at a position (temperature), or the split backtracking reaches first (city);
- the search returns the leftmost match.

`agent/agents/agent_base.py:80-95` posts the filled arguments directly: no schema validation, no re-validation against the entity patterns and no explanatory model call takes place, and the model has none either.

Files:

- `wrappers.dfy`: `Option` and `Result`.
- `text.dfy`: lower-casing, trimming, substring search and decimal digits.
- `seqs.dfy`: order-preserving filter and first-match search.
- `entities.dfy`: the extractor.
- `context_store.dfy`: the `ContextManager` class.
- `protocol.dfy`: JSON values, messages and replies.
- `agents.dfy`: `AgentBase`.
- `routing.dfy`: `route` and the merge loop.
- `core_orchestrator.dfy` and `legacy_orchestrator.dfy`: the two orchestrators.
- `legacy_responder.dfy`: `agent.py`.
- `wiring.dfy`: the roster split and the module-level `responder`s.
- `weather.dfy` and `cards.dfy`: `cards.js`.

## Model

| member | source | states |
|---|---|---|
| Entities.ExtractEntities | agent/tools/entidades.py:9-18 | the result is the fold of all patterns over a fresh map, built anew on every call; no patterns give an empty result (same code in core/agent/tools/entidades.py) |
| Entities.FoundKeys | agent/tools/entidades.py:14-17 | a name is a key of the result exactly when some pattern of that name matches; non-matching patterns are absent |
| Entities.FoundValue | core/agent/tools/entidades.py:15-17 | with distinct names, the value under a matching pattern's name is that pattern's first match |
| Entities.FoundKeysArePatternNames | core/agent/tools/context_manager.py:52-55 | every extracted key is a configured pattern name |
| Entities.FoundValuesFromText | agent/tools/entidades.py:15-17 | with an engine that reports substrings, every extracted value occurs in the text |
| Entities.AbsorbIsOverwrite | core/agent/tools/context_manager.py:52-55 | running the update loop over a stored context equals overwriting that context with a fresh extraction |
| ContextStore.ContextManager.constructor | core/agent/tools/context_manager.py:10-20 | the context starts empty; a missing reference map becomes the empty map |
| ContextStore.ContextManager.ExtractAndUpdate | core/agent/tools/context_manager.py:44-56 | the new context is the old one overwritten by the fresh extraction; the returned map equals the whole new context; every key stays a pattern name |
| ContextStore.ContextManager.ResolveReference | core/agent/tools/context_manager.py:58-69 | returns `{}` or a single stored entry `{e: context[e]}`, the one `Resolved` picks; the context is not modified |
| ContextStore.ContextManager.GetContext | core/agent/tools/context_manager.py:71-77 | returns a map equal to the context and changes nothing |
| ContextStore.ContextManager.ClearContext | core/agent/tools/context_manager.py:79-83 | the context becomes empty |
| ContextStore.Resolved | agent/context_manager.py:27-32 | the answer is empty or exactly one entry whose value comes from the stored context |
| ContextStore.ResolvedIsFirstApplicable | agent/context_manager.py:29-31 | the first reference entry, in map order, that recognises the text and whose entity is stored wins; later entries are ignored; with none applicable the answer is `{}` |
| ContextStore.EmptyContextResolvesNothing | agent/context_manager.py:37-38 | after clearing, every reference resolution returns `{}` |
| ContextStore.UppercaseReferenceNeverHits | backend/context_manager.py:26 | in the substring copy, a reference key containing an upper-case letter never matches, since only the text is lower-cased |
| ContextStore.UpdateSetsMatches | agent/context_manager.py:19-25 | after an update, every matching pattern's entity holds that pattern's match |
| ContextStore.UpdateKeepsUnmatched | backend/context_manager.py:15-21 | an update never removes a key, and an entity no matching pattern names keeps its value |
| Agents.NewAgent | agent/agents/agent_base.py:13-28 | the fields are kept, and the permitted roles are the given ones or else `cliente`, `admin`, `soporte` |
| Agents.BuildMessages | agent/agents/agent_base.py:44-53 | system prompt first, user text last, an entity note exactly when entities are non-empty; length 2 or 3 |
| Agents.SelectTools | agent/agents/agent_base.py:56-59 | a schema is kept exactly when the catalog has it and its name is one of the agent's tools; nothing without a catalog |
| Agents.SelectToolsKeepsOrder | agent/agents/agent_base.py:56-59 | the selection runs over the catalog entry by entry: it distributes over concatenation and keeps a single entry exactly when its name is listed, so catalog order and duplicates survive |
| Agents.RequiredFor | agent/agents/agent_base.py:81-82 | the `required` list of the first schema with the tool's name, empty when there is none |
| Agents.Filled | agent/agents/agent_base.py:83-85 | present arguments are kept unchanged; missing required ones known as entities are added; nothing else is added |
| Agents.FillRequired | agent/agents/agent_base.py:83-85 | the in-place filling loop produces exactly `Filled` |
| Agents.CallOutcome | agent/agents/agent_base.py:72-95 | the entry names the tool; it is "args invalidos" exactly when the arguments do not parse; a success carries the filled arguments and the backend's answer; a backend failure follows a failed POST |
| Agents.Outcomes | agent/agents/agent_base.py:71-96 | exactly one result per requested call, in call order |
| Agents.PostsSkipInvalidArgs | agent/agents/agent_base.py:74-79 | the number of POSTs is the number of calls minus those with unparseable arguments |
| Agents.RunToolCalls | agent/agents/agent_base.py:71-95 | the loop's results are `Outcomes` and its POSTs are `Posts` |
| Agents.PlainReply | agent/agents/agent_base.py:99-106 | text that decodes to a JSON object is returned as that object; otherwise the reply is a chat reply with the agent's name and the text |
| Agents.Handle | agent/agents/agent_base.py:31-106 | the conversation, the tool set offered, and the reply: tool results tagged with the agent's name when tools were called, the plain reply otherwise |
| Agents.UnlistedToolIsNotFilled | agent/agents/agent_base.py:81-82 | a tool the agent does not list gets no required list, so no filling |
| Routing.RouteSpec | core/agent/orchestrator.py:57-68 | with a non-empty name, the agent chosen carries that name, and "not found" happens exactly when no agent does; an empty roster is the only way the fallback fails |
| Routing.Route | core/agent/orchestrator.py:57-68 | the two search loops with early return compute `RouteSpec` |
| Routing.NamedRouteIsFirstNamed | core/agent/orchestrator.py:58-61 | by name, the first agent carrying exactly that name is chosen |
| Routing.KeywordRouteIsFirstMention | core/agent/orchestrator.py:64-68 | without a name, the first agent with a tool phrase (`_` read as space) in the lower-cased input wins, else the first agent |
| Routing.Dispatch | core/agent/orchestrator.py:58-68 | a chosen agent's `handle` result is returned; a missing name raises the "not found" text; an empty roster raises `list index out of range` |
| Routing.Conclude | core/agent/orchestrator.py:105-113 | a raised exception becomes an error reply with its text; a returned reply passes through |
| Routing.MergeReference | core/agent/orchestrator.py:100-103 | one merge step adds at most the looked-up entity |
| Routing.MergeNeverAdds | core/agent/orchestrator.py:98-103 | the merge never changes the entities, since a resolved reference only holds stored keys |
| Routing.GatherEntities | core/agent/orchestrator.py:98-103 | the store is updated by the extraction, and the entities handed on equal the whole updated context |
| CoreOrchestrator.AllowedAgents | core/agent/orchestrator.py:42 | an agent is kept exactly when it is in the roster and serves the role |
| CoreOrchestrator.AllowedKeepsOrder | core/agent/orchestrator.py:42 | role filtering keeps roster order, and keeps a roster all of whose agents serve the role unchanged |
| CoreOrchestrator.Decide | core/agent/orchestrator.py:92-109 | general chat exactly when the normalized answer is no allowed agent's normalized name; otherwise the first allowed agent with that normalized name is delegated to |
| CoreOrchestrator.DelegationReachesMatchedAgent | core/agent/orchestrator.py:107-109 | looking the matched agent up again by name always reaches an agent; for a non-empty name it reaches exactly `allowed_agents[idx]` |
| CoreOrchestrator.Handler | core/agent/orchestrator.py:97-109 | an agent that handles the request is in the roster and serves the caller's role |
| CoreOrchestrator.DelegatedReplyIsHandlers | core/agent/orchestrator.py:105-114 | the reply is the handler's reply, or an error reply carrying the text it raised |
| CoreOrchestrator.UnmatchedGivesChat | core/agent/orchestrator.py:115-124 | an answer naming no allowed agent reaches no agent and gives a chat reply with the general model's text |
| CoreOrchestrator.DecisionIgnoresCaseAndBlanks | core/agent/orchestrator.py:94-97 | answers that agree after trimming and lower-casing lead to the same decision |
| CoreOrchestrator.Orchestrator.constructor | core/agent/orchestrator.py:14-30 | stores the roster, router, catalog and context store |
| CoreOrchestrator.Orchestrator.Route | core/agent/orchestrator.py:44-68 | searches the given pool (the roster when none) and dispatches as `Dispatch` says |
| CoreOrchestrator.Orchestrator.Respond | core/agent/orchestrator.py:70-124 | the context is updated only when an allowed agent is named; the reply is `Reaction` over the updated context; no router or no answer text is an escaping exception |
| LegacyOrchestrator.Decide | agent/orchestrator.py:40-42 | general chat exactly when the stripped answer equals no agent's name (case-sensitive, no role filter) |
| LegacyOrchestrator.DelegationReachesNamedAgent | agent/orchestrator.py:42-51 | a delegated request always reaches an agent; for a non-empty name, the first agent with exactly that name |
| LegacyOrchestrator.UnmatchedGivesChat | agent/orchestrator.py:56-64 | an answer equal to no name (even one differing only in case) gives a chat reply without any agent call |
| LegacyOrchestrator.RaisedBecomesError | agent/orchestrator.py:50-54 | an exception raised while dispatching becomes an error reply with its text |
| LegacyOrchestrator.Orchestrator.constructor | agent/orchestrator.py:9-15 | stores the roster, router, catalog and context store |
| LegacyOrchestrator.Orchestrator.Route | agent/orchestrator.py:17-28 | by exact name or keyword over the whole roster, raising "no encontrado" when the name is missing |
| LegacyOrchestrator.Orchestrator.Respond | agent/orchestrator.py:30-64 | the context is updated only when the answer is an agent's name; the reply is `Reaction` over the updated context |
| LegacyResponder.Preamble | agent.py:20-26 | an entity note exactly when entities are non-empty, then the user text |
| LegacyResponder.Choices | agent.py:40-48 | the model is called once with `auto` when the first answer calls a tool, and otherwise exactly twice, the second time with `required` |
| LegacyResponder.TranscriptLength | agent.py:84-90 | the conversation grows by exactly two messages per successful call and none per failed one |
| LegacyResponder.RunCalls | agent.py:54-90 | one result per call in order, the appended messages, and the POSTs, with arguments filled from the full catalog |
| LegacyResponder.Respond | agent.py:16-92 | a chat reply with the final answer's text when no tool is called; otherwise the results tagged with `raw_input` equal to the user's text, and the grown conversation |
| Wiring.RouterAgent | core/agent/agent.py:45 | the first agent named `router_agent`, or none exactly when no agent has that name |
| Wiring.UserAgents | core/agent/agent.py:46 | exactly the agents not named `router_agent`, in roster order |
| Wiring.RosterSplit | core/agent/agent.py:45-46 | the router, and any other agent so named, is never a user agent; the split keeps roster order |
| Wiring.RosterCovered | agent/agent.py:34-35 | every agent of the roster is a user agent or carries the router's name |
| Wiring.BootCore | core/agent/agent.py:45-49 | the orchestrator is built over the user agents, the router and the catalog |
| Wiring.BootLegacy | agent/agent.py:34-38 | the same wiring for the older package |
| Wiring.CoreResponder | core/agent/agent.py:51-63 | delegates to the orchestrator with the role defaulting to `cliente`: the reply is the orchestrator's reaction, and the context grows by the entities found in the input exactly when the router's choice among the agents the role may use is delegated, and is unchanged otherwise |
| Wiring.AgentResponder | agent/agent.py:40-41 | delegates the input text alone, with no role: the reply is the orchestrator's reaction, and the context grows by the entities found in the input exactly when the router's choice is delegated, and is unchanged otherwise |
| Wiring.RouterNeverHandles | core/agent/agent.py:45-49 | no request is ever handled by an agent named `router_agent` |
| Weather.TempSplitIsGreedy | web/static/cards.js:308 | `(\d+)\s*grados` can match at a position in one way only: all the digits, then all the blanks |
| Weather.FindTempFrom | web/static/cards.js:308 | a hit is a match of the temperature pattern at or after the start position |
| Weather.FindTempFromIsLeftmost | web/static/cards.js:308 | no match starts between the start position and the hit, and none at all when the search fails |
| Weather.CityGreedyIsBacktrackFirst | web/static/cards.js:314 | the greedy reading of `en\s+([a-záéíóúñ\s]+)` is the split backtracking finds first, and it fails only where no split exists |
| Weather.BacktrackFirstIsUnique | web/static/cards.js:314 | the split backtracking finds first is unique |
| Weather.FindCityFrom | web/static/cards.js:314 | a hit is a city match at or after the start position, with its backtracking-first split |
| Weather.FindCityFromIsLeftmost | web/static/cards.js:314 | no match starts between the start position and the hit, and none at all when the search fails |
| Weather.CityGroup | web/static/cards.js:314 | the captured group holds only class characters |
| Weather.Temperature | web/static/cards.js:308-311 | the temperature read is never negative, since the pattern admits no sign |
| Weather.FieldsIffMatch | web/static/cards.js:308-317 | the temperature is set exactly when digits followed by `grados` occur, and the city exactly when `en`, blanks and a class character occur |
| Weather.TemperatureIsLeftmostDigits | web/static/cards.js:308-311 | the temperature is the value of the digit run of the leftmost match |
| Weather.City | web/static/cards.js:314-317 | the city is set exactly when the group was captured; it is trimmed and made of class characters |
| Weather.CityIsLeftmostGroup | web/static/cards.js:314-317 | the city is the trimmed group of the leftmost match |
| Text.RemoveFirst | web/static/cards.js:321-322 | a string pattern removes its first occurrence: the result is the text before it joined to the text after it, and the text is unchanged when the pattern does not occur |
| Weather.RemoveWordCI | web/static/cards.js:323 | removing `Clima:` case-insensitively cuts out its first occurrence, shortening the text by its length, and leaves the text unchanged when it does not occur |
| Weather.Description | web/static/cards.js:320-325 | the description is no longer than the input, has no surrounding blanks, and does not start with a lower-case letter |
| Weather.DescriptionWithoutMatches | web/static/cards.js:320-325 | with no temperature, no city and no `Clima:`, the description is the whole text trimmed and capitalised |
| Weather.TempTextIsLeftmostMatch | web/static/cards.js:308-321 | the text removed for the temperature is the leftmost match, and it is cut out at the place it matched |
| Weather.CityTextIsLeftmostMatch | web/static/cards.js:314-322 | the text removed for the city is the leftmost match, `en` through the end of the group |
| Weather.ParseWeatherString | web/static/cards.js:300-328 | nothing for a non-string; for a string the description is always set and the temperature and city only when their patterns match |
| Weather.WeatherIcon | web/static/cards.js:335-343 | the icon is one of the six weather icons |
| Weather.WeatherIconFollowsTable | web/static/cards.js:335-343 | the chain of tests equals the keyword table read in order (sol/despejado, nube/nublado, lluvia, tormenta, nieve) |
| Weather.GlobeIffNoKeyword | web/static/cards.js:336-342 | the globe is returned exactly when no keyword occurs in the lower-cased text |
| Cards.CardFor | web/static/cards.js:53-78 | the fixed priority: subscriber fields, then a `facturas` array, then an `incidencias` array, then a defined `clima`, then generic; `null` throws |
| Cards.NonObjectIsGeneric | web/static/cards.js:53-78 | strings, numbers and lists get the generic card |
| Cards.ToolIcon | web/static/cards.js:35 | the configured icon of a known tool, the default icon otherwise; never empty |
| Cards.StatusClass | web/static/cards.js:133 | `estado-desconocido` for a missing, null or empty state; `estado-` plus the lower-cased state otherwise; no upper-case letter after the prefix; `null` items throw, and so does a state that is a number, boolean, list or object |
| Cards.StatusClassIgnoresCase | web/static/cards.js:174 | states that differ only in case get the same class |
| Cards.CountHeader | web/static/cards.js:126 | the number in a list header reads back as the list's length |
| Cards.SubscriberFields | web/static/cards.js:97-111 | a configured field is shown exactly when its value is truthy, and the fields shown follow the configured order |
| Cards.AllSubscriberFieldsShown | web/static/cards.js:99-111 | with every field truthy, all fields are shown in configured order |
| Cards.SubscriberName | web/static/cards.js:89-94 | the name heads the card exactly when it is truthy |
| Cards.ResultCard | web/static/cards.js:13-46 | a successful result with a non-null response gets its tool's icon and the card of its response; an error entry or a null response throws |

## Left out

- Calls to the Groq model: the router, agent, general and retry calls are inputs, and the prompt texts, model names and token limits are not modelled.
- HTTP calls to the tool backend: `Backend` is a parameter, and the URL built from `SERVER_URL` is not modelled.
- Python's `re` engine: the `Engine` parameter, of which only soundness (matches are substrings) is assumed in one lemma.
- `json.loads` and `json.dumps`: parameters. The entity note carries the entity map itself rather than its JSON text.
- Configuration and file loading: entity patterns, reference maps, tool catalogs and agent rosters are constructor parameters. Of a tool schema only the name and `required` list are kept.
- `backend/entidades.py`, imported by `agent.py`, is not part of this model. The entities it extracts are a parameter of `LegacyResponder.Respond`.
- The `context` dict that the orchestrators pass to `handle`: `handle` never reads it.
- Logging, log-directory creation, and the FastAPI and command-line front ends.
- Concurrent requests on one context store: the code does not address them.
- DOM construction in `cards.js`: `renderObject`, `renderArray`, element markup, `createIncidenciaCard`, `CARD_TYPES` (not used by the dispatch) and `STATUS_COLORS`. Also all of `app.js`.
- Text.Lower: lower-cases ASCII letters only; Python's `str.lower` and JavaScript's `toLowerCase` also map other letters.
- Text.Strip: trims ASCII blanks only; Python's `strip` and JavaScript's `trim` also remove Unicode spaces.
- Weather.TempSplit, Weather.FindTempFrom: `\s` in `/(\d+)\s*grados/i` is read over ASCII blanks; other Unicode spaces are not modelled.
- Weather.CityGroup: `\s` and the `i` flag are read over ASCII blanks and letters plus `áéíóúñ`/`ÁÉÍÓÚÑ`; other Unicode spaces and case pairs are not modelled.
- Weather.Capitalize: upper-cases ASCII letters only, where JavaScript's `toUpperCase` also maps accented letters.
- Weather.Temperature: `parseInt` returns a double, so precision is lost above 2^53; the model keeps the exact integer.
- Protocol.Json: numbers are integers; JSON fractions and their truthiness (`0.0`) are not modelled.
- Cards.ToolIcon: tool names such as `constructor`, which read inherited members of a JavaScript object, are not modelled.
- Agents.ArgsParser: tool arguments that decode to a JSON value other than an object are not modelled.
- Agents.Agent: `allowedRoles == None` stands for an agent without an `allowed_roles` attribute, which `AgentBase` never produces. A missing `tools` attribute is not modelled.
