/** The values that flow between the orchestrator, the agents, the language model and the
    tool backend: JSON payloads, tool schemas, model messages and the replies returned to
    the caller. */
module Protocol {

  import opened Wrappers

  /** A decoded JSON value. Numbers are kept as integers. */
  datatype Json =
    | JNull
    | JBool(b: bool)
    | JNum(n: int)
    | JStr(s: string)
    | JArr(items: seq<Json>)
    | JObj(fields: map<string, Json>)

  type Args = map<string, Json>

  /** One entry of the tool catalog: the function's name and the `required` list of its
      parameter schema (the rest of the schema is only forwarded to the model). */
  datatype ToolSchema = ToolSchema(name: string, required: seq<string>)

  /** A tool invocation requested by the model: call id, function name and the raw
      (serialised) argument text. */
  datatype ToolCall = ToolCall(id: string, name: string, arguments: string)

  /** The assistant message of a model answer: its text (possibly absent) and its
      tool calls (an absent list is the empty list). */
  datatype AssistantMessage = AssistantMessage(content: Option<string>, toolCalls: seq<ToolCall>)

  /** `tool_choice` of a model call. */
  datatype ToolChoice = Auto | Required

  /** A message of the conversation sent to the model. `EntityNote` is the system
      message `"Entidades detectadas: " + json.dumps(entities)`. */
  datatype Message =
    | SystemPrompt(text: string)
    | EntityNote(entities: map<string, string>)
    | UserText(text: string)
    | AssistantToolCall(call: ToolCall)
    | ToolOutput(callId: string, payload: Json)

  /** What the tool backend answered to one POST: a decoded JSON body, or a failure
      (transport error, non-2xx status or an undecodable body). */
  datatype BackendOutcome = Delivered(payload: Json) | Failed

  /** One POST to `SERVER_URL/<tool>` with the argument record as body. */
  datatype Request = Request(tool: string, body: Args)

  /** One entry of the `results` list of a `tool_calls` reply. */
  datatype ToolResult =
    | ArgsInvalid(tool: string)                                  // {"tool", "error": "args invalidos"}
    | BackendFailure(tool: string)                               // {"tool", "error": "backend failure"}
    | Succeeded(tool: string, params: Args, response: Json)      // {"tool", "params", "response"}

  /** The reply handed back to the caller. */
  datatype Reply =
    | Chat(agentName: Option<string>, response: Option<string>)  // {"type": "chat", ["agent",] "response"}
    | Structured(fields: map<string, Json>)                      // a JSON object the model wrote as its text
    | ToolCalls(agent: string, results: seq<ToolResult>)         // {"type": "tool_calls", "agent", "results"}
    | ToolCallsFor(rawInput: string, results: seq<ToolResult>)   // {"type": "tool_calls", "raw_input", "results"}
    | Error(error: string)                                       // {"type": "error", "error"}

  /** What a call of an agent's `handle` came to: a reply, or an exception with its text. */
  datatype Handled = Returned(reply: Reply) | Raised(message: string)
}
