/** `Orchestrator` of `agent/orchestrator.py`, the older version: no role filter, and the
    router's answer must equal an agent's name exactly once stripped. */
module LegacyOrchestrator {

  import opened Wrappers
  import opened Text
  import opened Seqs
  import opened Protocol
  import opened Entities
  import opened ContextStore
  import opened Agents
  import opened Routing

  /** Text of the exception `route` raises when no agent carries the name. */
  function NotFound(name: string): string {
    "Agente '" + name + "' no encontrado"
  }

  const NoRouterMessage := "'NoneType' object has no attribute 'system_prompt'"
  const NoContentMessage := "'NoneType' object has no attribute 'strip'"

  /** `[a.name for a in self.agents]`. */
  function Names(agents: seq<Agent>): (r: seq<string>)
    ensures |r| == |agents|
    ensures forall i :: 0 <= i < |agents| ==> r[i] == agents[i].name
  {
    seq(|agents|, i requires 0 <= i < |agents| => agents[i].name)
  }

  datatype Decision =
    | Delegate(routed: Routed)  // the answer is an agent's name; `route` answers `routed`
    | GeneralChat               // the general model answers

  /** The decision of `responder` on the router's stripped answer: exact, case-sensitive
      comparison with every agent's name. */
  function Decide(agents: seq<Agent>, agentName: string, userInput: string): (d: Decision)
    ensures d.GeneralChat? <==> forall i :: 0 <= i < |agents| ==> agents[i].name != agentName
    ensures d.Delegate? && d.routed.Chosen? ==> d.routed.index < |agents|
  {
    if agentName in Names(agents) then Delegate(RouteSpec(agents, Some(agentName), userInput))
    else GeneralChat
  }

  /** A delegated request always reaches an agent, never the "no encontrado" error; for a
      non-empty name it is the first agent carrying exactly that name. */
  lemma DelegationReachesNamedAgent(agents: seq<Agent>, agentName: string, userInput: string, routed: Routed)
    requires Decide(agents, agentName, userInput) == Delegate(routed)
    ensures routed.Chosen?
    ensures agentName != "" ==> agents[routed.index].name == agentName
    ensures agentName != "" ==> forall j :: 0 <= j < routed.index ==> agents[j].name != agentName
  {
    var i :| 0 <= i < |agents| && Names(agents)[i] == agentName;
    assert agents[i].name == agentName;
    if agentName != "" {
      var f := FirstWhere(agents, (a: Agent) => a.name == agentName);
      assert f.Some?;
    }
  }

  /** The whole answer of `responder`; a `Failure` is an exception it lets escape. */
  function Reaction(agents: seq<Agent>, hasRouter: bool, routerContent: Option<string>, userInput: string,
                    entidades: Entities, run: Runner, schema: Option<seq<ToolSchema>>,
                    general: Option<string>): Result<Reply, string>
  {
    if !hasRouter then Failure(NoRouterMessage)
    else if routerContent.None? then Failure(NoContentMessage)
    else
      match Decide(agents, Strip(routerContent.value), userInput)
      case GeneralChat => Success(Chat(None, general))
      case Delegate(routed) => Success(Conclude(Dispatch(routed, agents, run, userInput, entidades, schema, NotFound)))
  }

  /** An answer equal to no agent name reaches no agent, even one differing only in letter
      case: the reply is the general model's text as a chat reply without an agent name. */
  lemma UnmatchedGivesChat(agents: seq<Agent>, routerText: string, userInput: string, entidades: Entities,
                           run: Runner, schema: Option<seq<ToolSchema>>, general: Option<string>)
    requires forall a :: a in agents ==> a.name != Strip(routerText)
    ensures Reaction(agents, true, Some(routerText), userInput, entidades, run, schema, general) ==
            Success(Chat(None, general))
  {
    assert forall i :: 0 <= i < |agents| ==> agents[i] in agents;
  }

  /** A raised exception during dispatch becomes an error reply carrying its text. */
  lemma RaisedBecomesError(agents: seq<Agent>, routerText: string, userInput: string, entidades: Entities,
                           run: Runner, schema: Option<seq<ToolSchema>>, general: Option<string>, i: nat)
    requires Strip(routerText) != "" && i < |agents| && agents[i].name == Strip(routerText)
    requires forall j :: 0 <= j < i ==> agents[j].name != Strip(routerText)
    requires run(agents[i], userInput, entidades, schema).Raised?
    ensures Reaction(agents, true, Some(routerText), userInput, entidades, run, schema, general) ==
            Success(Error(run(agents[i], userInput, entidades, schema).message))
  {
    NamedDecision(agents, Strip(routerText), userInput, i);
  }

  /** The first agent carrying a non-empty name is the one a delegation by that name reaches. */
  lemma NamedDecision(agents: seq<Agent>, name: string, userInput: string, i: nat)
    requires name != "" && i < |agents| && agents[i].name == name
    requires forall j :: 0 <= j < i ==> agents[j].name != name
    ensures Decide(agents, name, userInput) == Delegate(Chosen(i))
  {
    NamedRouteIsFirstNamed(agents, name, userInput, i);
    assert Names(agents)[i] == name;
  }

  class Orchestrator {
    const agents: seq<Agent>
    const routerAgent: Option<Agent>
    const toolsSchema: Option<seq<ToolSchema>>
    const contextManager: ContextManager

    ghost predicate Valid()
      reads this, contextManager
    {
      contextManager.Valid()
    }

    /** `Orchestrator(agents, router_agent, tools_schema, context_manager)`. */
    constructor (agents: seq<Agent>, routerAgent: Option<Agent>, toolsSchema: Option<seq<ToolSchema>>,
                 contextManager: ContextManager)
      requires contextManager.Valid()
      ensures Valid()
      ensures this.agents == agents && this.routerAgent == routerAgent
      ensures this.toolsSchema == toolsSchema && this.contextManager == contextManager
    {
      this.agents := agents;
      this.routerAgent := routerAgent;
      this.toolsSchema := toolsSchema;
      this.contextManager := contextManager;
    }

    /** `route(user_input, entidades, agent_name=None)` over the whole roster. */
    method Route(userInput: string, entidades: Entities, agentName: Option<string>, run: Runner)
      returns (h: Handled)
      ensures h == Dispatch(RouteSpec(agents, agentName, userInput), agents, run, userInput, entidades, toolsSchema, NotFound)
    {
      var routed := Routing.Route(agents, agentName, userInput);
      match routed
      case Chosen(i) => h := run(agents[i], userInput, entidades, toolsSchema);
      case NoSuchAgent(n) => h := Raised(NotFound(n));
      case EmptyRoster => h := Raised(IndexErrorMessage);
    }

    /** `responder(user_input)`: the context is updated only when the router's answer is
        an agent's name, and the reply is `Reaction`'s. */
    method Respond(userInput: string, routerContent: Option<string>, run: Runner, general: Option<string>)
      returns (r: Result<Reply, string>)
      requires Valid()
      modifies contextManager
      ensures Valid()
      ensures var delegated := routerAgent.Some? && routerContent.Some? &&
                               Decide(agents, Strip(routerContent.value), userInput).Delegate?;
              contextManager.context ==
                if delegated then old(contextManager.context) + Found(contextManager.engine, contextManager.patterns, userInput)
                else old(contextManager.context)
      ensures r == Reaction(agents, routerAgent.Some?, routerContent, userInput,
                            contextManager.context, run, toolsSchema, general)
    {
      if routerAgent.None? {
        return Failure(NoRouterMessage);
      }
      if routerContent.None? {
        return Failure(NoContentMessage);
      }
      var agentName := Strip(routerContent.value);
      if agentName in Names(agents) {
        var entidades := GatherEntities(contextManager, userInput);
        var handled := Route(userInput, entidades, Some(agentName), run);
        return Success(Conclude(handled));
      }
      return Success(Chat(None, general));
    }
  }
}
