/** The start-up wiring of `core/agent/agent.py` and `agent/agent.py`: the loaded roster
    is split into the router agent and the user agents, an orchestrator is built over
    them, and the module-level `responder` delegates to it. */
module Wiring {

  import opened Wrappers
  import opened Seqs
  import opened Protocol
  import opened ContextStore
  import opened Agents
  import opened Routing
  import opened Entities
  import opened Text
  import CoreOrchestrator
  import LegacyOrchestrator

  const RouterName := "router_agent"

  /** `next((a for a in agents if a.name == "router_agent"), None)`. */
  function RouterAgent(roster: seq<Agent>): (r: Option<Agent>)
    ensures r.None? <==> forall i :: 0 <= i < |roster| ==> roster[i].name != RouterName
    ensures r.Some? ==> exists i :: 0 <= i < |roster| && roster[i] == r.value && roster[i].name == RouterName
                                    && forall j :: 0 <= j < i ==> roster[j].name != RouterName
  {
    match FirstWhere(roster, (a: Agent) => a.name == RouterName)
    case Some(i) => Some(roster[i])
    case None => None
  }

  function IsUserAgent(a: Agent): bool {
    a.name != RouterName
  }

  /** `[a for a in agents if a.name != "router_agent"]`. */
  function UserAgents(roster: seq<Agent>): (r: seq<Agent>)
    ensures forall a :: a in r <==> a in roster && a.name != RouterName
  {
    FilterMembership(roster, IsUserAgent);
    Filter(roster, IsUserAgent)
  }

  /** The split: the router is never a user agent, nor is any other agent named like it
      (so a second `router_agent` lands in neither part); user agents keep roster order. */
  lemma RosterSplit(roster: seq<Agent>, front: seq<Agent>, back: seq<Agent>)
    ensures RouterAgent(roster).Some? ==> RouterAgent(roster).value !in UserAgents(roster)
    ensures forall i :: 0 <= i < |roster| && roster[i].name == RouterName ==> roster[i] !in UserAgents(roster)
    ensures UserAgents(front + back) == UserAgents(front) + UserAgents(back)
  {
    FilterConcat(front, back, IsUserAgent);
  }

  /** Every agent of the roster is the router, a user agent, or a duplicate router name. */
  lemma RosterCovered(roster: seq<Agent>)
    ensures forall a :: a in roster ==> a in UserAgents(roster) || a.name == RouterName
  {
  }

  /** Start-up of `core/agent/agent.py`: `Orchestrator(user_agents, router_agent, tools, context_manager)`. */
  method BootCore(roster: seq<Agent>, catalog: seq<ToolSchema>, cm: ContextManager)
    returns (o: CoreOrchestrator.Orchestrator)
    requires cm.Valid()
    ensures fresh(o) && o.Valid()
    ensures o.agents == UserAgents(roster) && o.routerAgent == RouterAgent(roster)
    ensures o.toolsSchema == Some(catalog) && o.contextManager == cm
  {
    o := new CoreOrchestrator.Orchestrator(UserAgents(roster), RouterAgent(roster), Some(catalog), cm);
  }

  /** Start-up of `agent/agent.py`. */
  method BootLegacy(roster: seq<Agent>, catalog: seq<ToolSchema>, cm: ContextManager)
    returns (o: LegacyOrchestrator.Orchestrator)
    requires cm.Valid()
    ensures fresh(o) && o.Valid()
    ensures o.agents == UserAgents(roster) && o.routerAgent == RouterAgent(roster)
    ensures o.toolsSchema == Some(catalog) && o.contextManager == cm
  {
    o := new LegacyOrchestrator.Orchestrator(UserAgents(roster), RouterAgent(roster), Some(catalog), cm);
  }

  /** `responder(user_input, user_role="cliente")` of `core/agent/agent.py`. */
  method CoreResponder(o: CoreOrchestrator.Orchestrator, userInput: string, routerContent: Option<string>,
                       run: Runner, general: Option<string>, userRole: string := "cliente")
    returns (r: Result<Reply, string>)
    requires o.Valid()
    modifies o.contextManager
    ensures o.Valid()
    ensures var delegated := o.routerAgent.Some? && routerContent.Some? &&
              CoreOrchestrator.Decide(CoreOrchestrator.AllowedAgents(o.agents, userRole),
                                      Strip(routerContent.value), userInput).Delegate?;
            o.contextManager.context ==
              if delegated then old(o.contextManager.context) + Found(o.contextManager.engine, o.contextManager.patterns, userInput)
              else old(o.contextManager.context)
    ensures r == CoreOrchestrator.Reaction(o.agents, o.routerAgent.Some?, userRole, routerContent, userInput,
                                           o.contextManager.context, run, o.toolsSchema, general)
  {
    r := o.Respond(userInput, userRole, routerContent, run, general);
  }

  /** `responder(user_input)` of `agent/agent.py`: no role is passed. */
  method AgentResponder(o: LegacyOrchestrator.Orchestrator, userInput: string, routerContent: Option<string>,
                         run: Runner, general: Option<string>)
    returns (r: Result<Reply, string>)
    requires o.Valid()
    modifies o.contextManager
    ensures o.Valid()
    ensures var delegated := o.routerAgent.Some? && routerContent.Some? &&
              LegacyOrchestrator.Decide(o.agents, Strip(routerContent.value), userInput).Delegate?;
            o.contextManager.context ==
              if delegated then old(o.contextManager.context) + Found(o.contextManager.engine, o.contextManager.patterns, userInput)
              else old(o.contextManager.context)
    ensures r == LegacyOrchestrator.Reaction(o.agents, o.routerAgent.Some?, routerContent, userInput,
                                             o.contextManager.context, run, o.toolsSchema, general)
  {
    r := o.Respond(userInput, routerContent, run, general);
  }

  /** A core set-up never hands a request to the router itself or to another agent named
      like it: every agent a request can reach is a user agent. */
  lemma RouterNeverHandles(roster: seq<Agent>, role: string, routerText: string, userInput: string)
    ensures CoreOrchestrator.Handler(UserAgents(roster), role, routerText, userInput).Some? ==>
              CoreOrchestrator.Handler(UserAgents(roster), role, routerText, userInput).value.name != RouterName
  {
  }
}
