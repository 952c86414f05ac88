/**
 * The deterministic agent pipeline: each step appends one history entry to the
 * state it is given and returns a new `AgentMonad`; `run_simple_agent` chains
 * the four steps with `then`.
 */
module Steps {
  import opened Monads
  import opened Models

  /** `after` is `before` with exactly `entry` appended and the same task. */
  predicate AppendsEntry(before: AgentState, after: AgentState, entry: string) {
    after.task == before.task && after.history == before.history + [entry]
  }

  /** The history entry of `plan_action`. */
  function PlanEntry(task: string): string {
    "Plan: call search with query='" + task + "'."
  }

  /** The history entry of `execute_tool`. */
  function ToolEntry(name: string, content: string): string {
    "Tool Result (" + name + "): " + content
  }

  const SynthesisEntry: string := "Synthesized final answer."
  const FormatEntry: string := "Formatted response for delivery."

  /** The fixed text `synthesize_answer` puts before its evidence. */
  const AnswerPreamble: string :=
    "Monadic Context Engineering structures agent workflows as composable steps "
    + "with built-in state threading, error short-circuiting, and optional parallelism. "

  /** `plan_action`: always plans one `search` call for the task. */
  function PlanAction(state: AgentState, task: string): (m: AgentMonad<AgentState, ToolCall>)
    ensures m.isSuccessful && WellFormed(m)
    ensures m.value == Some(ToolCall("tool-1", "search", map["query" := task]))
    ensures AppendsEntry(state, m.state, PlanEntry(task))
  {
    var call := ToolCall("tool-1", "search", map["query" := task]);
    var nextState := state.WithHistory("Plan: call " + call.name + " with query='" + task + "'.");
    assert "Plan: call " + call.name + " with query='" + task + "'." == PlanEntry(task);
    Success(nextState, call)
  }

  /** The table `execute_tool` runs: the registry given, or the default one. */
  function ToolsOrDefault(registry: Option<Tools>): (tools: Tools)
    ensures registry.Some? ==> tools == registry.value
    ensures registry.None? ==> tools == DefaultTools() && tools.Keys == {"search"}
  {
    if registry.Some? then registry.value else DefaultTools()
  }

  /**
   * `execute_tool`: records the tool's result in the history, then fails with
   * its content as the error exactly when the result is an error, and
   * otherwise succeeds with its content.
   */
  function ExecuteTool(state: AgentState, call: ToolCall, registry: Option<Tools>): (m: AgentMonad<AgentState, string>)
    ensures WellFormed(m)
    ensures var result := RunTool(ToolsOrDefault(registry), state, call);
            && AppendsEntry(state, m.state, ToolEntry(call.name, result.content))
            && (m.isSuccessful <==> !result.isError)
            && (result.isError ==> m.errorInfo == Text(result.content))
            && (!result.isError ==> m.value == Some(result.content))
  {
    var tools := ToolsOrDefault(registry);
    var result := RunTool(tools, state, call);
    var nextState := state.WithHistory("Tool Result (" + call.name + "): " + result.content);
    if result.isError then
      Failure(nextState, Text(result.content))
    else
      Success(nextState, result.content)
  }

  /** `synthesize_answer`: always succeeds with an answer ending in the tool's evidence. */
  function SynthesizeAnswer(state: AgentState, toolOutput: string): (m: AgentMonad<AgentState, string>)
    ensures m.isSuccessful && WellFormed(m)
    ensures m.value == Some(AnswerPreamble + "Evidence: " + toolOutput)
    ensures AppendsEntry(state, m.state, SynthesisEntry)
  {
    var answer := AnswerPreamble + "Evidence: " + toolOutput;
    var nextState := state.WithHistory("Synthesized final answer.");
    Success(nextState, answer)
  }

  /** `format_output`: always succeeds with the answer under a report heading. */
  function FormatOutput(state: AgentState, answer: string): (m: AgentMonad<AgentState, string>)
    ensures m.isSuccessful && WellFormed(m)
    ensures m.value == Some("Final Report:\n" + answer)
    ensures AppendsEntry(state, m.state, FormatEntry)
  {
    var formatted := "Final Report:\n" + answer;
    var nextState := state.WithHistory("Formatted response for delivery.");
    Success(nextState, formatted)
  }

  /** The call `plan_action` makes for a task. */
  function PlannedCall(task: string): ToolCall {
    ToolCall("tool-1", "search", map["query" := task])
  }

  /**
   * The chain of `run_simple_agent` with `execute_tool`'s optional registry left
   * open: start from an empty history and run plan, tool, synthesis and format
   * with `then`. The task is never changed, and the chain succeeds exactly when
   * the planned tool call does.
   */
  function AgentChain(task: string, registry: Option<Tools>): (m: AgentMonad<AgentState, string>)
    ensures WellFormed(m)
    ensures m.state.task == task
    ensures m.isSuccessful <==>
              !RunTool(ToolsOrDefault(registry), AgentState(task, [PlanEntry(task)]), PlannedCall(task)).isError
  {
    var initialState := AgentState(task, []);
    var planned := Then(StartFromState(initialState),
                        (s: AgentState, _: AgentState) => Returned(PlanAction(s, task)));
    var executed := Then(planned, (s: AgentState, call: ToolCall) => Returned(ExecuteTool(s, call, registry)));
    var synthesized := Then(executed, (s: AgentState, output: string) => Returned(SynthesizeAnswer(s, output)));
    Then(synthesized, (s: AgentState, answer: string) => Returned(FormatOutput(s, answer)))
  }

  /** The report `run_simple_agent` produces for a task. */
  function ExpectedReport(task: string): string {
    "Final Report:\n" + AnswerPreamble + "Evidence: " + SearchResults(task)
  }

  /** The history `run_simple_agent` leaves: plan, tool result, synthesis, formatting. */
  function ExpectedHistory(task: string): seq<string> {
    [PlanEntry(task), ToolEntry("search", SearchResults(task)), SynthesisEntry, FormatEntry]
  }

  /** With the default registry the chain ends with the report and the four-entry history. */
  lemma DefaultChainOutcome(task: string)
    ensures var m := AgentChain(task, None);
            && m.isSuccessful
            && m.value == Some(ExpectedReport(task))
            && m.state == AgentState(task, ExpectedHistory(task))
  {
    var s0 := AgentState(task, []);
    var planned := PlanAction(s0, task);
    var call := planned.value.value;
    var s1 := planned.state;
    assert RunTool(DefaultTools(), s1, call) == ToolSuccess("tool-1", SearchResults(task));
    var executed := ExecuteTool(s1, call, None);
    var synthesized := SynthesizeAnswer(executed.state, SearchResults(task));
    var formatted := FormatOutput(synthesized.state, AnswerPreamble + "Evidence: " + SearchResults(task));
    assert AgentChain(task, None) == formatted;
    assert "Final Report:\n" + (AnswerPreamble + "Evidence: " + SearchResults(task)) == ExpectedReport(task);
  }

  /**
   * `run_simple_agent`: the chain with the default registry. It succeeds with a
   * report on the search for the task, keeps the task, and leaves exactly four
   * history entries: plan, tool result, synthesis, formatting.
   */
  function RunSimpleAgent(task: string): (m: AgentMonad<AgentState, string>)
    ensures m.isSuccessful && m.value.Some?
    ensures m.value == Some(ExpectedReport(task))
    ensures "Final Report" <= m.value.value
    ensures m.state.task == task
    ensures m.state.history == ExpectedHistory(task)
  {
    DefaultChainOutcome(task);
    assert "Final Report" <= "Final Report:\n";
    AgentChain(task, None)
  }

  /**
   * Short-circuit in the pipeline: when the tool fails, the chain fails with the
   * tool's content as its error, and synthesis and formatting never happen:
   * the history stops at the plan and the tool result.
   */
  lemma AgentChainToolFailure(task: string, tools: Tools)
    requires RunTool(tools, AgentState(task, [PlanEntry(task)]), PlannedCall(task)).isError
    ensures var content := RunTool(tools, AgentState(task, [PlanEntry(task)]), PlannedCall(task)).content;
            var m := AgentChain(task, Some(tools));
            && !m.isSuccessful
            && m.errorInfo == Text(content)
            && m.state == AgentState(task, [PlanEntry(task), ToolEntry("search", content)])
  {
  }

  /** Without a `"search"` tool the pipeline fails with the registry's not-found message. */
  lemma AgentChainWithoutSearch(task: string, tools: Tools)
    requires "search" !in tools
    ensures !AgentChain(task, Some(tools)).isSuccessful
    ensures AgentChain(task, Some(tools)).errorInfo == Text("Tool not found: search")
  {
  }

  /** No step changes the task: every state update appends to the history. */
  lemma StepsKeepTask(state: AgentState, task: string, call: ToolCall, registry: Option<Tools>, text: string)
    ensures PlanAction(state, task).state.task == state.task
    ensures ExecuteTool(state, call, registry).state.task == state.task
    ensures SynthesizeAnswer(state, text).state.task == state.task
    ensures FormatOutput(state, text).state.task == state.task
    ensures |PlanAction(state, task).state.history| == |state.history| + 1
    ensures |ExecuteTool(state, call, registry).state.history| == |state.history| + 1
    ensures |SynthesizeAnswer(state, text).state.history| == |state.history| + 1
    ensures |FormatOutput(state, text).state.history| == |state.history| + 1
  {
  }
}
