/** `Orchestrator` of `core/agent/orchestrator.py`: filters the roster by the caller's
    role, asks the router model for an agent name, gathers entities, dispatches, and falls
    back to a general chat answer. The router's answer, the general answer and the agents'
    `handle` are parameters. */
module CoreOrchestrator {

  import opened Wrappers
  import opened Text
  import opened Seqs
  import opened Protocol
  import opened Entities
  import opened ContextStore
  import opened Agents
  import opened Routing

  /** Text of the exception `route` raises when no allowed agent carries the name. */
  function NotFound(name: string): string {
    "Agente '" + name + "' no encontrado o no permitido"
  }

  /** Python's message for `None.system_prompt` (an orchestrator built without a router). */
  const NoRouterMessage := "'NoneType' object has no attribute 'system_prompt'"

  /** Python's message for `None.strip()` (a router answer without text). */
  const NoContentMessage := "'NoneType' object has no attribute 'strip'"

  function PermittedFor(role: string): Agent -> bool {
    (a: Agent) => Permitted(a, role)
  }

  /** `get_allowed_agents(user_role)`: the agents, in roster order, that serve the role. */
  function AllowedAgents(agents: seq<Agent>, role: string): (r: seq<Agent>)
    ensures forall a :: a in r <==> a in agents && Permitted(a, role)
    ensures |r| <= |agents|
  {
    FilterMembership(agents, PermittedFor(role));
    Filter(agents, PermittedFor(role))
  }

  /** Every position of the filtered roster holds a roster agent that serves the role. */
  lemma AllowedAgentServes(agents: seq<Agent>, role: string, k: nat)
    requires k < |AllowedAgents(agents, role)|
    ensures AllowedAgents(agents, role)[k] in agents && Permitted(AllowedAgents(agents, role)[k], role)
  {
    assert AllowedAgents(agents, role)[k] in AllowedAgents(agents, role);
  }

  /** Role filtering keeps roster order: it distributes over concatenation, and keeps a
      roster whose agents all serve the role unchanged. */
  lemma AllowedKeepsOrder(front: seq<Agent>, back: seq<Agent>, role: string)
    ensures AllowedAgents(front + back, role) == AllowedAgents(front, role) + AllowedAgents(back, role)
    ensures (forall i :: 0 <= i < |front| ==> Permitted(front[i], role)) ==> AllowedAgents(front, role) == front
  {
    FilterConcat(front, back, PermittedFor(role));
    if forall i :: 0 <= i < |front| ==> Permitted(front[i], role) {
      FilterAll(front, PermittedFor(role));
    }
  }

  /** `s.strip().lower()`. */
  function Normalize(s: string): string {
    Lower(Strip(s))
  }

  /** `[a.name.strip().lower() for a in allowed_agents]`. */
  function NormalizedNames(agents: seq<Agent>): (r: seq<string>)
    ensures |r| == |agents|
    ensures forall i :: 0 <= i < |agents| ==> r[i] == Normalize(agents[i].name)
  {
    seq(|agents|, i requires 0 <= i < |agents| => Normalize(agents[i].name))
  }

  /** What `responder` does with the router's stripped answer. */
  datatype Decision =
    | Delegate(index: nat, routed: Routed)  // the name matched `allowed_agents[index]`; `route` answers `routed`
    | GeneralChat                           // no allowed agent matched: the general model answers

  /** The decision of `responder`: the first allowed agent whose normalized name equals the
      normalized answer is looked up again by `route`, by its own name. */
  function Decide(allowed: seq<Agent>, agentName: string, userInput: string): (d: Decision)
    ensures d.GeneralChat? <==> Normalize(agentName) !in NormalizedNames(allowed)
    ensures d.Delegate? ==> d.index < |allowed| && Normalize(allowed[d.index].name) == Normalize(agentName)
    ensures d.Delegate? ==> forall j :: 0 <= j < d.index ==> Normalize(allowed[j].name) != Normalize(agentName)
    ensures d.Delegate? && d.routed.Chosen? ==> d.routed.index < |allowed|
  {
    var names := NormalizedNames(allowed);
    var wanted := Normalize(agentName);
    match FirstWhere(names, (n: string) => n == wanted)
    case None => GeneralChat
    case Some(idx) => Delegate(idx, RouteSpec(allowed, Some(allowed[idx].name), userInput))
  }

  /** Looking the matched agent up again by name reaches that very agent, and `route`
      never raises "no encontrado o no permitido" from `responder`: an earlier agent with
      the same name would have the same normalized name. An agent whose name is empty is
      the one exception to reaching `allowed[index]`: `route` then searches by keyword. */
  lemma DelegationReachesMatchedAgent(allowed: seq<Agent>, agentName: string, userInput: string,
                                      index: nat, routed: Routed)
    requires Decide(allowed, agentName, userInput) == Delegate(index, routed)
    ensures routed.Chosen?
    ensures allowed[index].name != "" ==> routed == Chosen(index)
  {
    var name := allowed[index].name;
    assert routed == RouteSpec(allowed, Some(name), userInput);
    if name != "" {
      forall j | 0 <= j < index ensures allowed[j].name != name {
        assert Normalize(allowed[j].name) != Normalize(name);
      }
      NamedRouteIsFirstNamed(allowed, name, userInput, index);
    }
  }

  /** The whole answer of `responder`, given the router's answer, the entities gathered
      (used only when an agent is delegated to) and the general model's answer. A
      `Failure` is an exception `responder` lets escape. */
  function Reaction(agents: seq<Agent>, hasRouter: bool, role: string, routerContent: Option<string>,
                    userInput: string, entidades: Entities, run: Runner, schema: Option<seq<ToolSchema>>,
                    general: Option<string>): Result<Reply, string>
  {
    if !hasRouter then Failure(NoRouterMessage)
    else if routerContent.None? then Failure(NoContentMessage)
    else
      var allowed := AllowedAgents(agents, role);
      match Decide(allowed, Strip(routerContent.value), userInput)
      case GeneralChat => Success(Chat(None, general))
      case Delegate(_, routed) => Success(Conclude(Dispatch(routed, allowed, run, userInput, entidades, schema, NotFound)))
  }

  /** The request reaches the model or an agent only through the router; a delegated
      request runs an agent that serves the caller's role. */
  function Handler(agents: seq<Agent>, role: string, routerText: string, userInput: string): (h: Option<Agent>)
    ensures h.Some? ==> h.value in agents && Permitted(h.value, role)
  {
    var allowed := AllowedAgents(agents, role);
    var d := Decide(allowed, Strip(routerText), userInput);
    if d.Delegate? && d.routed.Chosen? then
      AllowedAgentServes(agents, role, d.routed.index);
      Some(allowed[d.routed.index])
    else None
  }

  /** The reply is the handler's reply, or the text of what it raised as an error reply. */
  lemma DelegatedReplyIsHandlers(agents: seq<Agent>, role: string, routerText: string, userInput: string,
                                 entidades: Entities, run: Runner, schema: Option<seq<ToolSchema>>, general: Option<string>)
    requires Handler(agents, role, routerText, userInput).Some?
    ensures Reaction(agents, true, role, Some(routerText), userInput, entidades, run, schema, general) ==
            Success(Conclude(run(Handler(agents, role, routerText, userInput).value, userInput, entidades, schema)))
  {
  }

  /** An answer naming no allowed agent (after trimming and lower-casing) reaches no agent:
      the reply is a chat reply carrying the general model's text and no agent name. */
  lemma UnmatchedGivesChat(agents: seq<Agent>, role: string, routerText: string, userInput: string,
                           entidades: Entities, run: Runner, schema: Option<seq<ToolSchema>>, general: Option<string>)
    requires forall a :: a in agents && Permitted(a, role) ==> Normalize(a.name) != Normalize(Strip(routerText))
    ensures Handler(agents, role, routerText, userInput).None?
    ensures Reaction(agents, true, role, Some(routerText), userInput, entidades, run, schema, general) ==
            Success(Chat(None, general))
  {
    var allowed := AllowedAgents(agents, role);
    NoNameMatches(allowed, Normalize(Strip(routerText)));
    assert Decide(allowed, Strip(routerText), userInput) == GeneralChat;
  }

  lemma NoNameMatches(allowed: seq<Agent>, wanted: string)
    requires forall a :: a in allowed ==> Normalize(a.name) != wanted
    ensures wanted !in NormalizedNames(allowed)
  {
    var names := NormalizedNames(allowed);
    forall i | 0 <= i < |names| ensures names[i] != wanted {
      assert allowed[i] in allowed;
    }
  }

  /** A router answer is recognised whatever its surrounding blanks and letter case. */
  lemma DecisionIgnoresCaseAndBlanks(allowed: seq<Agent>, a: string, b: string, userInput: string)
    requires Normalize(a) == Normalize(b)
    ensures Decide(allowed, a, userInput) == Decide(allowed, b, userInput)
  {
  }

  class Orchestrator {
    const agents: seq<Agent>
    const routerAgent: Option<Agent>
    const toolsSchema: Option<seq<ToolSchema>>
    const contextManager: ContextManager

    ghost predicate Valid()
      reads this, contextManager
    {
      contextManager.Valid()
    }

    /** `Orchestrator(agents, router_agent, tools_schema, context_manager)`. */
    constructor (agents: seq<Agent>, routerAgent: Option<Agent>, toolsSchema: Option<seq<ToolSchema>>,
                 contextManager: ContextManager)
      requires contextManager.Valid()
      ensures Valid()
      ensures this.agents == agents && this.routerAgent == routerAgent
      ensures this.toolsSchema == toolsSchema && this.contextManager == contextManager
    {
      this.agents := agents;
      this.routerAgent := routerAgent;
      this.toolsSchema := toolsSchema;
      this.contextManager := contextManager;
    }

    /** `route(user_input, entidades, agent_name=None, allowed_agents=None)`: search the
        given pool (the whole roster when none is given) and run the agent found. */
    method Route(userInput: string, entidades: Entities, agentName: Option<string>,
                 allowedAgents: Option<seq<Agent>>, run: Runner) returns (h: Handled)
      ensures var pool := if allowedAgents.Some? then allowedAgents.value else agents;
              h == Dispatch(RouteSpec(pool, agentName, userInput), pool, run, userInput, entidades, toolsSchema, NotFound)
    {
      var pool := if allowedAgents.Some? then allowedAgents.value else agents;
      var routed := Routing.Route(pool, agentName, userInput);
      match routed
      case Chosen(i) => h := run(pool[i], userInput, entidades, toolsSchema);
      case NoSuchAgent(n) => h := Raised(NotFound(n));
      case EmptyRoster => h := Raised(IndexErrorMessage);
    }

    /** `responder(user_input, user_role="cliente")`: the context is updated only when the
        router's answer names an allowed agent, and the reply is `Reaction`'s. */
    method Respond(userInput: string, userRole: string, routerContent: Option<string>,
                   run: Runner, general: Option<string>) returns (r: Result<Reply, string>)
      requires Valid()
      modifies contextManager
      ensures Valid()
      ensures var delegated := routerAgent.Some? && routerContent.Some? &&
                               Decide(AllowedAgents(agents, userRole), Strip(routerContent.value), userInput).Delegate?;
              contextManager.context ==
                if delegated then old(contextManager.context) + Found(contextManager.engine, contextManager.patterns, userInput)
                else old(contextManager.context)
      ensures r == Reaction(agents, routerAgent.Some?, userRole, routerContent, userInput,
                            contextManager.context, run, toolsSchema, general)
    {
      var allowed := AllowedAgents(agents, userRole);
      if routerAgent.None? {
        return Failure(NoRouterMessage);
      }
      if routerContent.None? {
        return Failure(NoContentMessage);
      }
      var agentName := Strip(routerContent.value);
      var wanted := Normalize(agentName);
      var names := NormalizedNames(allowed);
      if wanted in names {
        var entidades := GatherEntities(contextManager, userInput);
        var idx := FirstWhere(names, (n: string) => n == wanted).value;
        var agente := allowed[idx];
        var handled := Route(userInput, entidades, Some(agente.name), Some(allowed), run);
        return Success(Conclude(handled));
      }
      return Success(Chat(None, general));
    }
  }
}
