/** The dispatch step both orchestrators share (`Orchestrator.route` and the entity
    gathering of `Orchestrator.responder` in `core/agent/orchestrator.py` and
    `agent/orchestrator.py`): pick an agent by exact name or by a tool keyword in the
    user's text, run it, and turn what it raises into an error reply. */
module Routing {

  import opened Wrappers
  import opened Text
  import opened Seqs
  import opened Protocol
  import opened Entities
  import opened ContextStore
  import opened Agents

  /** The outcome of `route`'s agent search. */
  datatype Routed =
    | Chosen(index: nat)         // the agent at this position handles the request
    | NoSuchAgent(name: string)  // a name was given and no agent carries it
    | EmptyRoster                // keyword search failed and `agents_to_use[0]` raises

  /** `agent.handle(user_input, entidades, context, tools_schema)`: the model calls inside
      it make it an oracle. */
  type Runner = (Agent, string, Entities, Option<seq<ToolSchema>>) -> Handled

  /** Python's `str(IndexError)` for `[][0]`. */
  const IndexErrorMessage := "list index out of range"

  /** One of the agent's tool names, with `_` read as a space, occurs in the lower-cased input. */
  predicate Mentions(agent: Agent, userInput: string) {
    exists t :: t in agent.tools && Contains(Lower(userInput), UnderscoresToSpaces(t))
  }

  /** The agent `route` picks: with a non-empty name, the first agent with exactly that
      name; otherwise the first agent mentioning one of its tools, else the first agent. */
  function RouteSpec(agents: seq<Agent>, agentName: Option<string>, userInput: string): (r: Routed)
    ensures r.Chosen? ==> r.index < |agents|
    ensures agentName.Some? && agentName.value != "" ==>
              (r.Chosen? ==> agents[r.index].name == agentName.value)
              && (r.NoSuchAgent? <==> forall j :: 0 <= j < |agents| ==> agents[j].name != agentName.value)
    ensures r.EmptyRoster? ==> agents == []
    ensures r.NoSuchAgent? ==> agentName.Some? && agentName.value != ""
  {
    if agentName.Some? && agentName.value != "" then
      match FirstWhere(agents, (a: Agent) => a.name == agentName.value)
      case Some(i) => Chosen(i)
      case None => NoSuchAgent(agentName.value)
    else
      match FirstWhere(agents, (a: Agent) => Mentions(a, userInput))
      case Some(i) => Chosen(i)
      case None => if agents == [] then EmptyRoster else Chosen(0)
  }

  /** The first agent whose name is the given non-empty name is the one reached by name. */
  lemma NamedRouteIsFirstNamed(agents: seq<Agent>, name: string, userInput: string, i: nat)
    requires name != "" && i < |agents| && agents[i].name == name
    requires forall j :: 0 <= j < i ==> agents[j].name != name
    ensures RouteSpec(agents, Some(name), userInput) == Chosen(i)
  {
    var r := FirstWhere(agents, (a: Agent) => a.name == name);
    assert r.Some?;
  }

  /** Keyword routing: the first agent in roster order that mentions one of its tools
      wins, and with no mention the first agent answers. */
  lemma KeywordRouteIsFirstMention(agents: seq<Agent>, userInput: string)
    requires agents != []
    ensures forall i :: 0 <= i < |agents| && Mentions(agents[i], userInput) &&
                        (forall j :: 0 <= j < i ==> !Mentions(agents[j], userInput)) ==>
                        RouteSpec(agents, None, userInput) == Chosen(i)
    ensures (forall j :: 0 <= j < |agents| ==> !Mentions(agents[j], userInput)) ==>
            RouteSpec(agents, None, userInput) == Chosen(0)
  {
    var r := FirstWhere(agents, (a: Agent) => Mentions(a, userInput));
    forall i | 0 <= i < |agents| && Mentions(agents[i], userInput) &&
               (forall j :: 0 <= j < i ==> !Mentions(agents[j], userInput))
      ensures RouteSpec(agents, None, userInput) == Chosen(i)
    {
      assert r.Some?;
    }
  }

  /** `route`'s two search loops: by name with an early return, else over every agent's
      tools with an early return, else the first agent. */
  method Route(agents: seq<Agent>, agentName: Option<string>, userInput: string) returns (r: Routed)
    ensures r == RouteSpec(agents, agentName, userInput)
  {
    if agentName.Some? && agentName.value != "" {
      for i := 0 to |agents|
        invariant forall j :: 0 <= j < i ==> agents[j].name != agentName.value
      {
        if agents[i].name == agentName.value {
          return Chosen(i);
        }
      }
      return NoSuchAgent(agentName.value);
    }
    var lowered := Lower(userInput);
    for i := 0 to |agents|
      invariant forall j :: 0 <= j < i ==> !Mentions(agents[j], userInput)
    {
      var tools := agents[i].tools;
      for k := 0 to |tools|
        invariant forall m :: 0 <= m < k ==> !Contains(lowered, UnderscoresToSpaces(tools[m]))
      {
        if Contains(lowered, UnderscoresToSpaces(tools[k])) {
          return Chosen(i);
        }
      }
    }
    if agents == [] {
      return EmptyRoster;
    }
    return Chosen(0);
  }

  /** What calling `route` comes to: the chosen agent's `handle`, or the exception `route`
      raises itself (`notFound` builds the version's "not found" text). */
  function Dispatch(routed: Routed, agents: seq<Agent>, run: Runner, userInput: string,
                    entidades: Entities, schema: Option<seq<ToolSchema>>, notFound: string -> string): (h: Handled)
    requires routed.Chosen? ==> routed.index < |agents|
    ensures routed.Chosen? ==> h == run(agents[routed.index], userInput, entidades, schema)
    ensures routed.NoSuchAgent? ==> h == Raised(notFound(routed.name))
    ensures routed.EmptyRoster? ==> h == Raised(IndexErrorMessage)
  {
    match routed
    case Chosen(i) => run(agents[i], userInput, entidades, schema)
    case NoSuchAgent(n) => Raised(notFound(n))
    case EmptyRoster => Raised(IndexErrorMessage)
  }

  /** The `try`/`except` around dispatch: a raised exception becomes `{"type": "error", "error": str(e)}`. */
  function Conclude(h: Handled): (r: Reply)
    ensures h.Raised? ==> r == Error(h.message)
    ensures h.Returned? ==> r == h.reply
  {
    match h
    case Returned(reply) => reply
    case Raised(m) => Error(m)
  }

  /** One step of the merge loop: copy the entity from the resolved reference when it is there. */
  function MergeReference(entidades: Entities, entidad: string, referencia: Entities): (r: Entities)
    ensures r.Keys == entidades.Keys + (if entidad in referencia then {entidad} else {})
  {
    if entidad in referencia then entidades[entidad := referencia[entidad]] else entidades
  }

  /** The merge never changes anything: a missing entity is never among the resolved
      entries, which are all stored ones. */
  lemma MergeNeverAdds(entidades: Entities, entidad: string, referencia: Entities)
    requires entidad !in entidades
    requires referencia == map[] || exists e :: e in entidades && referencia == map[e := entidades[e]]
    ensures MergeReference(entidades, entidad, referencia) == entidades
  {
    if referencia != map[] {
      var e :| e in entidades && referencia == map[e := entidades[e]];
      assert entidad !in referencia;
    }
  }

  /** The entity step of `responder`: `extract_and_update`, then, for every pattern name
      not found, a reference resolution merged into the result. */
  method GatherEntities(cm: ContextManager, userInput: string) returns (entidades: Entities)
    requires cm.Valid()
    modifies cm
    ensures cm.Valid()
    ensures cm.context == old(cm.context) + Found(cm.engine, cm.patterns, userInput)
    ensures entidades == cm.context
  {
    entidades := cm.ExtractAndUpdate(userInput);
    for i := 0 to |cm.patterns|
      invariant cm.Valid()
      invariant cm.context == old(cm.context) + Found(cm.engine, cm.patterns, userInput)
      invariant entidades == cm.context
    {
      var entidad := cm.patterns[i].0;
      if entidad !in entidades {
        var referencia := cm.ResolveReference(userInput);
        MergeNeverAdds(entidades, entidad, referencia);
        entidades := MergeReference(entidades, entidad, referencia);
      }
    }
  }
}
