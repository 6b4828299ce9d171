/** The stand-alone `responder` of `agent.py`: a single model offered the whole tool
    catalog, asked again with `tool_choice="required"` when it calls no tool, whose tool
    calls are run one by one while the conversation grows. The model's two possible
    answers, the extracted entities, `json.loads` and the backend are parameters. */
module LegacyResponder {

  import opened Wrappers
  import opened Protocol
  import opened Agents

  /** The conversation before any tool runs: the entity note when entities were found,
      then the user's text. */
  function Preamble(userInput: string, entidades: map<string, string>): (r: seq<Message>)
    ensures |r| == (if entidades != map[] then 2 else 1)
    ensures r[|r| - 1] == UserText(userInput)
    ensures EntityNote(entidades) in r <==> entidades != map[]
  {
    (if entidades != map[] then [EntityNote(entidades)] else []) + [UserText(userInput)]
  }

  /** The two messages a call appends to the conversation when its tool succeeded, none otherwise. */
  function Exchange(call: ToolCall, outcome: ToolResult): seq<Message> {
    if outcome.Succeeded? then [AssistantToolCall(call), ToolOutput(call.id, outcome.response)] else []
  }

  /** Everything the tool-call loop appends to the conversation, in call order. */
  function Transcript(calls: seq<ToolCall>, catalog: seq<ToolSchema>, entidades: map<string, string>,
                      parseArgs: ArgsParser, post: Backend): seq<Message>
    decreases |calls|
  {
    if calls == [] then []
    else
      var last := calls[|calls| - 1];
      Transcript(calls[..|calls| - 1], catalog, entidades, parseArgs, post)
      + Exchange(last, CallOutcome(last, catalog, entidades, parseArgs, post))
  }

  function CountSucceeded(results: seq<ToolResult>): nat {
    if results == [] then 0
    else CountSucceeded(results[..|results| - 1]) + (if results[|results| - 1].Succeeded? then 1 else 0)
  }

  /** Each successful call grows the conversation by exactly two messages; failed calls add none. */
  lemma {:induction false} TranscriptLength(calls: seq<ToolCall>, catalog: seq<ToolSchema>, entidades: map<string, string>,
                                            parseArgs: ArgsParser, post: Backend)
    ensures |Transcript(calls, catalog, entidades, parseArgs, post)| ==
            2 * CountSucceeded(Outcomes(calls, catalog, entidades, parseArgs, post))
    decreases |calls|
  {
    if calls != [] {
      var init := calls[..|calls| - 1];
      TranscriptLength(init, catalog, entidades, parseArgs, post);
      var outs := Outcomes(calls, catalog, entidades, parseArgs, post);
      assert outs[..|outs| - 1] == Outcomes(init, catalog, entidades, parseArgs, post);
    }
  }

  /** The tool-choice modes of the model calls made: a second, forced call exactly when
      the first answer called no tool. */
  function Choices(first: AssistantMessage): (r: seq<ToolChoice>)
    ensures |r| >= 1 && r[0] == Auto
    ensures Required in r <==> first.toolCalls == []
    ensures |r| == (if first.toolCalls == [] then 2 else 1)
    ensures forall k :: 1 <= k < |r| ==> r[k] == Required
  {
    if first.toolCalls != [] then [Auto] else [Auto, Required]
  }

  /** The answer the reply is built from: the first one when it calls a tool, else the forced one. */
  function FinalAnswer(first: AssistantMessage, second: AssistantMessage): AssistantMessage {
    if first.toolCalls != [] then first else second
  }

  /** One more call extends the transcript by that call's share. */
  lemma TranscriptStep(calls: seq<ToolCall>, i: nat, catalog: seq<ToolSchema>, entidades: map<string, string>,
                       parseArgs: ArgsParser, post: Backend)
    requires i < |calls|
    ensures Transcript(calls[..i + 1], catalog, entidades, parseArgs, post) ==
            Transcript(calls[..i], catalog, entidades, parseArgs, post)
            + Exchange(calls[i], CallOutcome(calls[i], catalog, entidades, parseArgs, post))
  {
    assert calls[..i + 1][..i] == calls[..i];
  }

  /** The tool-call loop of `responder`: the result of every call, the messages the
      successful ones append, and the POSTs issued. */
  method RunCalls(calls: seq<ToolCall>, catalog: seq<ToolSchema>, entidades: map<string, string>,
                  parseArgs: ArgsParser, post: Backend)
    returns (resultados: seq<ToolResult>, added: seq<Message>, posted: seq<Request>)
    ensures resultados == Outcomes(calls, catalog, entidades, parseArgs, post)
    ensures added == Transcript(calls, catalog, entidades, parseArgs, post)
    ensures posted == Posts(calls, catalog, entidades, parseArgs)
  {
    resultados, added, posted := [], [], [];
    for i := 0 to |calls|
      invariant resultados == Outcomes(calls[..i], catalog, entidades, parseArgs, post)
      invariant posted == Posts(calls[..i], catalog, entidades, parseArgs)
      invariant added == Transcript(calls[..i], catalog, entidades, parseArgs, post)
    {
      CallStep(calls, i, catalog, entidades, parseArgs, post);
      TranscriptStep(calls, i, catalog, entidades, parseArgs, post);
      var call := calls[i];
      var parsed := parseArgs(call.arguments);
      if parsed.None? {
        resultados := resultados + [ArgsInvalid(call.name)];
        continue;
      }
      var args := FillRequired(parsed.value, RequiredFor(catalog, call.name), entidades);
      posted := posted + [Request(call.name, args)];
      var out := post(call.name, args);
      if out.Failed? {
        resultados := resultados + [BackendFailure(call.name)];
        continue;
      }
      added := added + [AssistantToolCall(call), ToolOutput(call.id, out.payload)];
      resultados := resultados + [Succeeded(call.name, args, out.payload)];
    }
    assert calls[..|calls|] == calls;
  }

  /** `responder(user_input)`. Returns the tool-choice modes used, the reply, the final
      conversation and the POSTs issued. */
  method Respond(userInput: string, entidades: map<string, string>, catalog: seq<ToolSchema>,
                 first: AssistantMessage, second: AssistantMessage, parseArgs: ArgsParser, post: Backend)
    returns (choices: seq<ToolChoice>, reply: Reply, messages: seq<Message>, posted: seq<Request>)
    ensures choices == Choices(first)
    ensures var answer := FinalAnswer(first, second);
            answer.toolCalls == [] ==>
              reply == Chat(None, answer.content) && messages == Preamble(userInput, entidades) && posted == []
    ensures var answer := FinalAnswer(first, second);
            answer.toolCalls != [] ==>
              reply == ToolCallsFor(userInput, Outcomes(answer.toolCalls, catalog, entidades, parseArgs, post))
              && messages == Preamble(userInput, entidades) + Transcript(answer.toolCalls, catalog, entidades, parseArgs, post)
              && posted == Posts(answer.toolCalls, catalog, entidades, parseArgs)
  {
    messages := [];
    if entidades != map[] {
      messages := messages + [EntityNote(entidades)];
    }
    messages := messages + [UserText(userInput)];
    assert messages == Preamble(userInput, entidades);
    choices := [Auto];
    var msg := first;
    if msg.toolCalls == [] {
      choices := choices + [Required];
      msg := second;
    }
    posted := [];
    assert choices == Choices(first) && msg == FinalAnswer(first, second);
    if msg.toolCalls == [] {
      reply := Chat(None, msg.content);
      return;
    }
    var resultados, added;
    resultados, added, posted := RunCalls(msg.toolCalls, catalog, entidades, parseArgs, post);
    messages := messages + added;
    reply := ToolCallsFor(userInput, resultados);
  }
}
