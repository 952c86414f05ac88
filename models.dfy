/**
 * The agent's data: its state (a task and a copy-on-append history), tool calls
 * and tool results, and the tool registry, a name-to-handler table that
 * `register` updates in place.
 */
module Models {
  import opened Monads

  /** `AgentState`: a task and the history of what the agent did. */
  datatype AgentState = AgentState(task: string, history: seq<string>)
  {
    /** `with_history`: a copy with one entry appended; the original is a value and stays as it was. */
    function WithHistory(entry: string): (s: AgentState)
      ensures s.task == task
      ensures |s.history| == |history| + 1
      ensures s.history[..|history|] == history && s.history[|history|] == entry
    {
      this.(history := history + [entry])
    }
  }

  /** `ToolCall`: the arguments are the string-valued ones the repository passes. */
  datatype ToolCall = ToolCall(toolId: string, name: string, arguments: map<string, string>)

  datatype ToolResult = ToolResult(toolId: string, content: string, isError: bool)

  /** `ToolResult.success`. */
  function ToolSuccess(toolId: string, content: string): (r: ToolResult)
    ensures !r.isError && r.toolId == toolId && r.content == content
  {
    ToolResult(toolId, content, false)
  }

  /** `ToolResult.failure`. */
  function ToolFailure(toolId: string, content: string): (r: ToolResult)
    ensures r.isError && r.toolId == toolId && r.content == content
  {
    ToolResult(toolId, content, true)
  }

  /** `ToolHandler`: returns the tool's output, or raises. */
  type ToolHandler = (AgentState, ToolCall) -> Outcome<string>

  /** The registry's table. */
  type Tools = map<string, ToolHandler>

  /**
   * What `ToolRegistry.run` returns for a table: a failure naming an unknown
   * tool, the handler's output as a success, or a failure describing the
   * exception the handler raised; the call's id is kept in every case.
   */
  function RunTool(tools: Tools, state: AgentState, call: ToolCall): (r: ToolResult)
    ensures r.toolId == call.toolId
    ensures call.name !in tools ==> r == ToolFailure(call.toolId, "Tool not found: " + call.name)
    ensures call.name in tools && tools[call.name](state, call).Returned? ==>
              r == ToolSuccess(call.toolId, tools[call.name](state, call).value)
    ensures call.name in tools && tools[call.name](state, call).Raised? ==>
              r == ToolFailure(call.toolId, "Tool error: " + tools[call.name](state, call).exc.message)
  {
    if call.name !in tools then
      ToolFailure(call.toolId, "Tool not found: " + call.name)
    else
      match tools[call.name](state, call)
      case Returned(content) => ToolSuccess(call.toolId, content)
      case Raised(exc) => ToolFailure(call.toolId, "Tool error: " + exc.message)
  }

  /** A result is an error exactly when the tool is unknown or its handler raised. */
  lemma RunToolErrorIff(tools: Tools, state: AgentState, call: ToolCall)
    ensures RunTool(tools, state, call).isError <==>
              call.name !in tools || tools[call.name](state, call).Raised?
  {
  }

  /** Registering `name` decides later runs of `name` and leaves every other name as it was. */
  lemma RegisterThenRun(tools: Tools, name: string, handler: ToolHandler, state: AgentState, call: ToolCall)
    ensures call.name == name ==> RunTool(tools[name := handler], state, call) == RunTool(map[name := handler], state, call)
    ensures call.name != name ==> RunTool(tools[name := handler], state, call) == RunTool(tools, state, call)
  {
  }

  /** `ToolRegistry`: a table that `register` updates in place. */
  class ToolRegistry {
    var tools: Tools

    constructor ()
      ensures tools == map[]
    {
      tools := map[];
    }

    /** The handler registered under `name`, as `self._tools.get(name)`. */
    function Lookup(name: string): (h: Option<ToolHandler>)
      reads this
      ensures h.Some? <==> name in tools
      ensures h.Some? ==> h.value == tools[name]
    {
      if name in tools then Some(tools[name]) else None
    }

    /** `register`: `name` now maps to `handler`, replacing any earlier one; nothing else changes. */
    method Register(name: string, handler: ToolHandler)
      modifies this
      ensures tools == old(tools)[name := handler]
      ensures Lookup(name) == Some(handler)
      ensures forall other :: other != name ==> Lookup(other) == old(Lookup(other))
    {
      tools := tools[name := handler];
    }

    /** `run`: looks the handler up and calls it, catching what it raises. */
    method Run(state: AgentState, call: ToolCall) returns (r: ToolResult)
      ensures r == RunTool(tools, state, call)
    {
      var handler := Lookup(call.name);
      if handler.None? {
        return ToolFailure(call.toolId, "Tool not found: " + call.name);
      }
      var content := handler.value(state, call);
      match content {
        case Returned(c) =>
          r := ToolSuccess(call.toolId, c);
        case Raised(exc) =>
          r := ToolFailure(call.toolId, "Tool error: " + exc.message);
      }
    }
  }

  /** The text `search_tool` returns for a query. */
  function SearchResults(query: string): string {
    "Search results for '" + query + "': MCE formalizes agent steps using monads."
  }

  /** `search_tool`: searches for the call's `query` argument, or for the task when there is none; it never raises. */
  function SearchTool(state: AgentState, call: ToolCall): (o: Outcome<string>)
    ensures o.Returned?
    ensures "query" in call.arguments ==> o.value == SearchResults(call.arguments["query"])
    ensures "query" !in call.arguments ==> o.value == SearchResults(state.task)
  {
    var query := if "query" in call.arguments then call.arguments["query"] else state.task;
    Returned(SearchResults(query))
  }

  /** The table `default_registry` builds: only `"search"`. */
  function DefaultTools(): (t: Tools)
    ensures t.Keys == {"search"} && t["search"] == SearchTool
  {
    map["search" := SearchTool]
  }

  /** `default_registry`: a fresh registry with `search_tool` registered under `"search"`. */
  method DefaultRegistry() returns (registry: ToolRegistry)
    ensures fresh(registry)
    ensures registry.tools == DefaultTools()
  {
    registry := new ToolRegistry();
    registry.Register("search", SearchTool);
  }
}
