/** `AgentBase` (`agent/agents/agent_base.py`): a named persona with a prompt, the tools
    it may call and the caller roles it serves, and its `handle` pipeline. The model's
    answer, `json.loads` and the tool backend are parameters. */
module Agents {

  import opened Wrappers
  import opened Seqs
  import opened Protocol

  /** Roles an agent serves when its configuration names none. */
  const DefaultRoles: seq<string> := ["cliente", "admin", "soporte"]

  /** An agent as the orchestrator sees it. `allowedRoles == None` is an agent object
      without an `allowed_roles` attribute (every `AgentBase` has one). */
  datatype Agent = Agent(name: string, systemPrompt: string, specialization: string,
                         tools: seq<string>, allowedRoles: Option<seq<string>>)

  /** The caller role may use the agent. */
  predicate Permitted(agent: Agent, role: string) {
    agent.allowedRoles.None? || role in agent.allowedRoles.value
  }

  /** `AgentBase(name, system_prompt, specialization, tools, allowed_roles=None)`. */
  function NewAgent(name: string, systemPrompt: string, specialization: string,
                    tools: seq<string>, allowedRoles: Option<seq<string>>): (a: Agent)
    ensures a.name == name && a.systemPrompt == systemPrompt
    ensures a.specialization == specialization && a.tools == tools
    ensures a.allowedRoles.Some?
    ensures allowedRoles.Some? ==> forall role :: Permitted(a, role) <==> role in allowedRoles.value
    ensures allowedRoles.None? ==> forall role :: Permitted(a, role) <==> role in DefaultRoles
  {
    Agent(name, systemPrompt, specialization, tools,
          Some(if allowedRoles.Some? then allowedRoles.value else DefaultRoles))
  }

  /** `json.loads(call.function.arguments)` on tool-call arguments: the decoded object,
      or `None` when decoding raises. */
  type ArgsParser = string -> Option<Args>

  /** `json.loads(content)` on the model's text. */
  type Decoder = string -> Option<Json>

  /** The tool backend: `requests.post(f"{SERVER_URL}/{name}", json=args)` followed by
      `raise_for_status()` and `.json()`. */
  type Backend = (string, Args) -> BackendOutcome

  /** The conversation `handle` sends to the model. */
  function Opening(agent: Agent, userInput: string, entidades: map<string, string>): seq<Message> {
    [SystemPrompt(agent.systemPrompt)]
    + (if entidades != map[] then [EntityNote(entidades)] else [])
    + [UserText(userInput)]
  }

  /** Builds the opening conversation message by message: the persona prompt first, the
      entity note only when entities were found, the user's text last. */
  method BuildMessages(agent: Agent, userInput: string, entidades: map<string, string>)
    returns (messages: seq<Message>)
    ensures messages == Opening(agent, userInput, entidades)
    ensures |messages| == (if entidades != map[] then 3 else 2)
    ensures messages[0] == SystemPrompt(agent.systemPrompt)
    ensures messages[|messages| - 1] == UserText(userInput)
    ensures EntityNote(entidades) in messages <==> entidades != map[]
  {
    messages := [];
    messages := messages + [SystemPrompt(agent.systemPrompt)];
    if entidades != map[] {
      messages := messages + [EntityNote(entidades)];
    }
    messages := messages + [UserText(userInput)];
  }

  /** `tools_to_use`: the catalog entries, in catalog order, whose name the agent lists;
      nothing when there is no catalog. */
  function SelectTools(toolNames: seq<string>, catalog: Option<seq<ToolSchema>>): (r: seq<ToolSchema>)
    ensures forall t :: t in r <==> catalog.Some? && t in catalog.value && t.name in toolNames
    ensures catalog.Some? ==> |r| <= |catalog.value|
  {
    if catalog.None? then []
    else
      FilterMembership(catalog.value, Listed(toolNames));
      Filter(catalog.value, Listed(toolNames))
  }

  function Listed(toolNames: seq<string>): ToolSchema -> bool {
    (t: ToolSchema) => t.name in toolNames
  }

  /** Selection keeps the catalog's order and its duplicates: it works entry by entry and
      distributes over concatenation. */
  lemma SelectToolsKeepsOrder(toolNames: seq<string>, a: seq<ToolSchema>, b: seq<ToolSchema>, t: ToolSchema)
    ensures SelectTools(toolNames, Some(a + b)) == SelectTools(toolNames, Some(a)) + SelectTools(toolNames, Some(b))
    ensures SelectTools(toolNames, Some([t])) == if t.name in toolNames then [t] else []
  {
    FilterConcat(a, b, Listed(toolNames));
  }

  /** The `required` list of the first schema named `name` (found by
      `next((t for t in schemas if t["function"]["name"] == name), None)`), empty for a
      tool the schemas lack. */
  function RequiredFor(schemas: seq<ToolSchema>, name: string): (r: seq<string>)
    ensures (forall t :: t in schemas ==> t.name != name) ==> r == []
    ensures forall i :: (0 <= i < |schemas| && schemas[i].name == name &&
                         (forall j :: 0 <= j < i ==> schemas[j].name != name)) ==> r == schemas[i].required
  {
    match FirstWhere(schemas, (t: ToolSchema) => t.name == name)
    case Some(i) => schemas[i].required
    case None => []
  }

  /** The argument record after filling: what the model gave, plus every required
      parameter it left out for which an entity is known. */
  function Filled(args: Args, required: seq<string>, entidades: map<string, string>): (r: Args)
    ensures forall k :: k in args ==> k in r && r[k] == args[k]
    ensures forall k :: k in required && k !in args && k in entidades ==> k in r && r[k] == JStr(entidades[k])
    ensures forall k :: k in r ==> k in args || (k in required && k in entidades)
  {
    map k | k in args.Keys + (set q | q in required && q in entidades) ::
      if k in args then args[k] else JStr(entidades[k])
  }

  /** One more required parameter fills that parameter alone, and only when it is missing. */
  lemma FilledStep(args: Args, required: seq<string>, r: string, entidades: map<string, string>)
    ensures var before := Filled(args, required, entidades);
            Filled(args, required + [r], entidades) ==
              if r !in before && r in entidades then before[r := JStr(entidades[r])] else before
  {
    var before := Filled(args, required, entidades);
    var after := Filled(args, required + [r], entidades);
    var expected := if r !in before && r in entidades then before[r := JStr(entidades[r])] else before;
    forall k ensures k in after <==> k in expected {
      assert k in required + [r] <==> k in required || k == r;
    }
    assert after.Keys == expected.Keys;
  }

  /** Fills missing required arguments from the entities in place, one parameter at a
      time, never overwriting an argument already present. */
  method FillRequired(args: Args, required: seq<string>, entidades: map<string, string>)
    returns (filled: Args)
    ensures filled == Filled(args, required, entidades)
  {
    filled := args;
    for i := 0 to |required|
      invariant filled == Filled(args, required[..i], entidades)
    {
      var r := required[i];
      assert required[..i + 1] == required[..i] + [r];
      FilledStep(args, required[..i], r, entidades);
      if r !in filled && r in entidades {
        filled := filled[r := JStr(entidades[r])];
      }
    }
    assert required[..|required|] == required;
  }

  /** The result entry of one requested tool call. */
  function CallOutcome(call: ToolCall, schemas: seq<ToolSchema>, entidades: map<string, string>,
                       parseArgs: ArgsParser, post: Backend): (r: ToolResult)
    ensures r.tool == call.name
    ensures r.ArgsInvalid? <==> parseArgs(call.arguments).None?
    ensures r.Succeeded? ==>
              (r.params == Filled(parseArgs(call.arguments).value, RequiredFor(schemas, call.name), entidades)
               && post(call.name, r.params) == Delivered(r.response))
    ensures r.BackendFailure? ==>
              (parseArgs(call.arguments).Some?
               && post(call.name, Filled(parseArgs(call.arguments).value, RequiredFor(schemas, call.name), entidades)) == Failed)
  {
    match parseArgs(call.arguments)
    case None => ArgsInvalid(call.name)
    case Some(args) =>
      var body := Filled(args, RequiredFor(schemas, call.name), entidades);
      match post(call.name, body)
      case Failed => BackendFailure(call.name)
      case Delivered(out) => Succeeded(call.name, body, out)
  }

  /** The POST one requested tool call causes: none when its arguments do not parse. */
  function CallRequests(call: ToolCall, schemas: seq<ToolSchema>, entidades: map<string, string>,
                        parseArgs: ArgsParser): seq<Request>
  {
    match parseArgs(call.arguments)
    case None => []
    case Some(args) => [Request(call.name, Filled(args, RequiredFor(schemas, call.name), entidades))]
  }

  /** The `results` list: exactly one entry per requested call, in call order. */
  function Outcomes(calls: seq<ToolCall>, schemas: seq<ToolSchema>, entidades: map<string, string>,
                    parseArgs: ArgsParser, post: Backend): (r: seq<ToolResult>)
    ensures |r| == |calls|
    ensures forall i :: 0 <= i < |calls| ==> r[i] == CallOutcome(calls[i], schemas, entidades, parseArgs, post)
    decreases |calls|
  {
    if calls == [] then []
    else Outcomes(calls[..|calls| - 1], schemas, entidades, parseArgs, post)
         + [CallOutcome(calls[|calls| - 1], schemas, entidades, parseArgs, post)]
  }

  /** The POSTs the loop issues, in order. */
  function Posts(calls: seq<ToolCall>, schemas: seq<ToolSchema>, entidades: map<string, string>,
                 parseArgs: ArgsParser): seq<Request>
    decreases |calls|
  {
    if calls == [] then []
    else Posts(calls[..|calls| - 1], schemas, entidades, parseArgs)
         + CallRequests(calls[|calls| - 1], schemas, entidades, parseArgs)
  }

  function CountArgsInvalid(results: seq<ToolResult>): nat {
    if results == [] then 0
    else CountArgsInvalid(results[..|results| - 1]) + (if results[|results| - 1].ArgsInvalid? then 1 else 0)
  }

  /** The backend is called once for every call whose arguments parse, and never for the others. */
  lemma {:induction false} PostsSkipInvalidArgs(calls: seq<ToolCall>, schemas: seq<ToolSchema>,
                                                entidades: map<string, string>, parseArgs: ArgsParser, post: Backend)
    ensures |Posts(calls, schemas, entidades, parseArgs)| ==
            |calls| - CountArgsInvalid(Outcomes(calls, schemas, entidades, parseArgs, post))
    decreases |calls|
  {
    if calls != [] {
      var init := calls[..|calls| - 1];
      PostsSkipInvalidArgs(init, schemas, entidades, parseArgs, post);
      var outs := Outcomes(calls, schemas, entidades, parseArgs, post);
      assert outs[..|outs| - 1] == Outcomes(init, schemas, entidades, parseArgs, post);
    }
  }

  /** One more call extends the results and the POSTs by that call's share. */
  lemma CallStep(calls: seq<ToolCall>, i: nat, schemas: seq<ToolSchema>, entidades: map<string, string>,
                 parseArgs: ArgsParser, post: Backend)
    requires i < |calls|
    ensures Outcomes(calls[..i + 1], schemas, entidades, parseArgs, post) ==
            Outcomes(calls[..i], schemas, entidades, parseArgs, post) + [CallOutcome(calls[i], schemas, entidades, parseArgs, post)]
    ensures Posts(calls[..i + 1], schemas, entidades, parseArgs) ==
            Posts(calls[..i], schemas, entidades, parseArgs) + CallRequests(calls[i], schemas, entidades, parseArgs)
  {
    assert calls[..i + 1][..i] == calls[..i];
  }

  /** The tool-call loop of `handle`: one result per call, in order; a call whose
      arguments do not parse is recorded and skipped without reaching the backend. */
  method RunToolCalls(calls: seq<ToolCall>, schemas: seq<ToolSchema>, entidades: map<string, string>,
                      parseArgs: ArgsParser, post: Backend)
    returns (results: seq<ToolResult>, posted: seq<Request>)
    ensures results == Outcomes(calls, schemas, entidades, parseArgs, post)
    ensures posted == Posts(calls, schemas, entidades, parseArgs)
  {
    results, posted := [], [];
    for i := 0 to |calls|
      invariant results == Outcomes(calls[..i], schemas, entidades, parseArgs, post)
      invariant posted == Posts(calls[..i], schemas, entidades, parseArgs)
    {
      CallStep(calls, i, schemas, entidades, parseArgs, post);
      var call := calls[i];
      var parsed := parseArgs(call.arguments);
      if parsed.None? {
        results := results + [ArgsInvalid(call.name)];
        continue;
      }
      var args := FillRequired(parsed.value, RequiredFor(schemas, call.name), entidades);
      posted := posted + [Request(call.name, args)];
      var out := post(call.name, args);
      if out.Failed? {
        results := results + [BackendFailure(call.name)];
        continue;
      }
      results := results + [Succeeded(call.name, args, out.payload)];
    }
    assert calls[..|calls|] == calls;
  }

  /** The reply when the model requested no tool: a JSON object written as the text is
      returned as is, anything else becomes a chat reply carrying the agent's name. */
  function PlainReply(agentName: string, content: Option<string>, decode: Decoder): (r: Reply)
    ensures r.Structured? <==> content.Some? && decode(content.value).Some? && decode(content.value).value.JObj?
    ensures r.Structured? ==> decode(content.value) == Some(JObj(r.fields))
    ensures !r.Structured? ==> r == Chat(Some(agentName), content)
  {
    if content.Some? && decode(content.value).Some? && decode(content.value).value.JObj? then
      Structured(decode(content.value).value.fields)
    else Chat(Some(agentName), content)
  }

  /** `AgentBase.handle`: the conversation and tool set offered to the model, and the
      reply built from the model's `answer`. */
  method Handle(agent: Agent, userInput: string, entidades: map<string, string>,
                catalog: Option<seq<ToolSchema>>, answer: AssistantMessage,
                parseArgs: ArgsParser, decode: Decoder, post: Backend)
    returns (messages: seq<Message>, toolsToUse: seq<ToolSchema>, reply: Reply, posted: seq<Request>)
    ensures messages == Opening(agent, userInput, entidades)
    ensures toolsToUse == SelectTools(agent.tools, catalog)
    ensures answer.toolCalls != [] ==>
              (reply == ToolCalls(agent.name, Outcomes(answer.toolCalls, toolsToUse, entidades, parseArgs, post))
               && posted == Posts(answer.toolCalls, toolsToUse, entidades, parseArgs))
    ensures answer.toolCalls == [] ==> reply == PlainReply(agent.name, answer.content, decode) && posted == []
  {
    messages := BuildMessages(agent, userInput, entidades);
    toolsToUse := SelectTools(agent.tools, catalog);
    if answer.toolCalls != [] {
      var results;
      results, posted := RunToolCalls(answer.toolCalls, toolsToUse, entidades, parseArgs, post);
      reply := ToolCalls(agent.name, results);
      return;
    }
    posted := [];
    reply := PlainReply(agent.name, answer.content, decode);
  }

  /** A tool the agent does not list never has its arguments filled: the schemas handed
      to the loop are the agent's own tools only. */
  lemma UnlistedToolIsNotFilled(agent: Agent, catalog: Option<seq<ToolSchema>>, name: string)
    requires name !in agent.tools
    ensures RequiredFor(SelectTools(agent.tools, catalog), name) == []
  {
  }
}
