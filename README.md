# Monadic Context Engineering: the agent monad, gather, and the simple agent pipeline

This project models, in Dafny, the core of the `mce` package:

- `AgentMonad`, a frozen record `(state, value, is_successful, error_info)`, with
  its combinators `then` (bind with short-circuit), `map` and `apply`, and its
  constructors `start`, `success` and `failure` (module `Monads`, file `monads.dfy`);
- `gather_sync`, which combines a list of records deterministically, and
  `AsyncAgentMonad`, whose run function becomes a thunk returning an `AgentMonad`
  (also in `Monads`);
- the laws of `then`, `map` and `apply` and the repository's monad tests
  (module `MonadLaws`, file `monad_laws.dfy`);
- `AgentState` with its copy-on-append history, `ToolCall`, `ToolResult`, and the
  `ToolRegistry` class whose `register` updates its table in place (module
  `Models`, file `models.dfy`);
- the four pipeline steps and `run_simple_agent` (module `Steps`, file `steps.dfy`).

How the Python is represented:

- `V | None` is `Option<V>`. A record's value is an `Option`, because a success
  without a value is real and observable: `then` turns it into a failure and
  `map` raises on it.
- "Raises" is explicit. A continuation, a map function or a tool handler returns
  an `Outcome`: `Returned(x)` or `Raised(exc)`. An exception is its class name
  and its `str()` text. `then` catches it into a failure that keeps the current
  state. `map` and `apply` catch nothing, so they return an `Outcome` themselves.
- `error_info: Any` is `ErrorInfo`. Its cases are the values the code stores
  there: `NoInfo` (Python's `None`), `Text(s)` (the strings the steps and
  `gather` use), and `Caught(exc)` (an exception caught by `then`).
- `start(state, v)` is `Start` when `v` is not `None`. `start(state)` is
  `StartFromState`, where the state is its own value.
- The result of `gather` has state type `Option<S>`, because an empty gather
  fails with the state `None`. An empty gather fails; it does not succeed with an
  empty list.
- `AsyncAgentMonad` holds a thunk. `then` and `gather` build new thunks. Running
  `AsyncThen` is `Then` applied to the inner run. Running `AsyncGather` is
  `GatherSync` over the flows' results in input order, which is the order
  `asyncio.gather` returns.
- `ToolRegistry` is a class with a `map` field. `Register` reassigns it. `Run`
  is proved equal to the pure `RunTool`, and the pure steps use `RunTool`.
  `execute_tool`'s optional registry argument is passed as the registry's table
  (`Option<Tools>`). Python's `registry or default_registry()` always keeps a
  given registry, because a `ToolRegistry` is always truthy.
- Right identity of `then` holds only for well-formed records: a success holds a
  value and no error, a failure holds no value. `RightIdentityNeedsValue` shows
  a success without a value for which it fails.

## Model

| member | source | states |
|---|---|---|
| `Monads.Success` | src/mce/monads.py:54-56 | a successful, well-formed record with the given state and value |
| `Monads.Failure` | src/mce/monads.py:58-63 | a failed record with no value that keeps the given state and error |
| `Monads.Start` | src/mce/monads.py:49-52 | `start` with a value is always successful and holds that value and state |
| `Monads.StartFromState` | src/mce/monads.py:49-52 | `start` without a value is always successful and holds the state as its value |
| `Monads.RequireValue` | src/mce/monads.py:22-25 | raises `ValueError("AgentMonad has no value.")` exactly when the value is `None`, else gives the value |
| `Monads.Catch` | src/mce/monads.py:30-34 | an exception becomes a failure with the current state and the caught exception; a returned record passes through |
| `Monads.Then` | src/mce/monads.py:27-34 | a failure gives a failure with the same state and error; a success with `None` value, or a raising `func`, gives a failure with the unchanged state; otherwise exactly `func(state, value)`; a successful result is what `func` returned |
| `Monads.Map` | src/mce/monads.py:36-40 | the state is always kept; a failure keeps its error; a success gets `func(value)`; it raises exactly when the value is `None` or `func` raises |
| `Monads.Apply` | src/mce/monads.py:42-47 | uses `self`'s state always; `self`'s error if `self` failed, else `func_flow`'s; with both successful it equals `map` of the held function; raises on a missing function |
| `Monads.Failures` | src/mce/monads.py:129 | the failures of the list, each one failed and taken from the list |
| `Monads.States` | src/mce/monads.py:134 | the states of the flows, in input order |
| `Monads.Values` | src/mce/monads.py:136 | the values of the flows, in input order |
| `Monads.FailuresEmptyIff` | src/mce/monads.py:129-130 | the list of failures is empty exactly when every flow succeeded |
| `Monads.FailuresHead` | src/mce/monads.py:129-132 | the first element of the list of failures is the first failing flow by position |
| `Monads.FirstFailureExists` | src/mce/monads.py:129-132 | a list that does not all succeed has a first failing position, so the failure case is always decided by one |
| `Monads.MergedState` | src/mce/monads.py:135 | `merge_state` of all the states in input order when one is given, otherwise the last flow's state |
| `Monads.GatherSync` | src/mce/monads.py:121-137 | an empty list fails with `"No flows provided"` and a `None` state; otherwise the first failing flow by position gives the state and error; with no failure it succeeds with the values in input order and the last state or `merge_state(states)`; it succeeds exactly in that case |
| `Monads.AsyncStart` | src/mce/monads.py:91-96 | running it gives `start(state, value)`, which is successful |
| `Monads.AsyncStartFromState` | src/mce/monads.py:91-96 | running it gives `start(state)`, which is successful |
| `Monads.AsyncThen` | src/mce/monads.py:78-89 | running it is `then` on the inner run's result, so a failure short-circuits with its own state and error |
| `Monads.AsyncAgentMonad.Run` | src/mce/monads.py:75-76 | running calls the stored run function afresh; nothing is memoised |
| `Monads.RunAll` | src/mce/monads.py:107 | the flows' run results, one per flow, in input order |
| `Monads.AsyncGather` | src/mce/monads.py:98-118 | running it equals `gather_sync` over the flows' run results in input order; an empty list fails with `"No flows provided"` |
| `MonadLaws.ThenIgnoresContinuationAfterFailure` | src/mce/monads.py:27-29 | after a failure any two continuations give the same result, which keeps the state and error |
| `MonadLaws.FailurePropagates` | src/mce/monads.py:27-34 | a chain in which one step returns a failure ends with that failure whatever the later steps are |
| `MonadLaws.LeftIdentity` | src/mce/monads.py:27-34 | `then` over a fresh success is the continuation's own result, with its exception caught |
| `MonadLaws.RightIdentity` | src/mce/monads.py:27-34 | `then` with the success-building continuation returns every well-formed record unchanged |
| `MonadLaws.RightIdentityNeedsValue` | src/mce/monads.py:22-34 | a success without a value is not returned unchanged: it becomes a `ValueError` failure |
| `MonadLaws.Associativity` | src/mce/monads.py:27-34 | regrouping two `then` steps gives the same record |
| `MonadLaws.MapIsThen` | src/mce/monads.py:36-40 | `map` with its exception caught equals `then` with a success-building continuation |
| `MonadLaws.MapIdentity` | src/mce/monads.py:36-40 | mapping the function that returns its argument returns every well-formed record unchanged |
| `MonadLaws.ApplyIsMap` | src/mce/monads.py:42-47 | `apply` of a successful function flow equals `map` of its function |
| `MonadLaws.ThenSuccessCase` | tests/test_monads.py:6-9 | `start("state","start")` continued with `v + "-next"` succeeds with `"start-next"` |
| `MonadLaws.ThenFailureCase` | tests/test_monads.py:12-15 | a failure continued keeps the error `"error"` |
| `MonadLaws.MapApplyCase` | tests/test_monads.py:18-25 | `map(v + 1)` of 2 gives 3 and `apply` of `v * 5` to 2 gives 10 |
| `MonadLaws.AsyncGatherCase` | tests/test_monads.py:28-41 | gathering two async flows that double 2 and 3 succeeds with `[4, 6]` |
| `Models.AgentState.WithHistory` | src/mce/models.py:13-14 | the task is kept, the old history is a prefix, and exactly one entry is appended at the end |
| `Models.ToolSuccess` | src/mce/models.py:28-30 | `is_error` false, with the given tool id and content |
| `Models.ToolFailure` | src/mce/models.py:32-34 | `is_error` true, with the given tool id and content |
| `Models.RunTool` | src/mce/models.py:47-55 | keeps the call's tool id; an unknown name gives a failure `"Tool not found: " + name`; a returned content gives a success with it; a raised exception gives a failure `"Tool error: " + str(exc)` |
| `Models.RunToolErrorIff` | src/mce/models.py:47-55 | a result is an error exactly when the tool is unknown or its handler raised |
| `Models.RegisterThenRun` | src/mce/models.py:44-55 | after registering `name`, running `name` uses only the new handler and every other name runs as before |
| `Models.ToolRegistry.constructor` | src/mce/models.py:41-42 | a new registry has an empty table |
| `Models.ToolRegistry.Lookup` | src/mce/models.py:48 | a handler is found exactly when the name is registered, and it is the registered one |
| `Models.ToolRegistry.Register` | src/mce/models.py:44-45 | the table maps `name` to the new handler, replacing any earlier one, and every other name is unchanged |
| `Models.ToolRegistry.Run` | src/mce/models.py:47-55 | the method's result equals `RunTool` on the registry's table |
| `Models.SearchTool` | src/mce/models.py:61-63 | never raises; reports the call's `query` argument if present, else the state's task |
| `Models.DefaultTools` | src/mce/models.py:58-66 | the default table holds `"search"` and nothing else, mapped to `search_tool` |
| `Models.DefaultRegistry` | src/mce/models.py:58-66 | a fresh registry whose table is the default table |
| `Steps.PlanAction` | src/mce/steps.py:8-11 | always succeeds with the call `("tool-1", "search", {"query": task})` and appends exactly the plan entry, keeping the task |
| `Steps.ExecuteTool` | src/mce/steps.py:14-22 | appends exactly `"Tool Result (<name>): <content>"`; fails with the content as its error exactly when the tool result is an error, else succeeds with the content |
| `Steps.SynthesizeAnswer` | src/mce/steps.py:25-32 | always succeeds with an answer ending in `"Evidence: " + tool_output` and appends exactly one entry |
| `Steps.FormatOutput` | src/mce/steps.py:62-65 | always succeeds with `"Final Report:\n" + answer` and appends exactly one entry |
| `Steps.StepsKeepTask` | src/mce/steps.py:8-65 | no step changes the task, and each one adds exactly one history entry |
| `Steps.ToolsOrDefault` | src/mce/steps.py:17 | `registry or default_registry()`: the given registry's table, else the default table holding only `"search"` |
| `Steps.AgentChain` | src/mce/steps.py:68-76 | the `then` chain of `run_simple_agent` with `execute_tool`'s registry argument left open: the task is kept, and it succeeds exactly when the planned `search` call's tool result is not an error |
| `Steps.DefaultChainOutcome` | src/mce/steps.py:68-76 | with the default registry the chain succeeds with the exact report and the exact four-entry history |
| `Steps.RunSimpleAgent` | src/mce/steps.py:68-76 | `run_simple_agent(task)` succeeds with a report starting with `"Final Report"` on the search for the task, keeps the task, and its history is exactly plan, tool result, synthesis, formatting |
| `Steps.AgentChainToolFailure` | src/mce/steps.py:68-76 | the chain with a caller-given registry, which `run_simple_agent` itself never passes: when the tool fails, the chain fails with the tool's content and its history stops after the plan and the tool result |
| `Steps.AgentChainWithoutSearch` | src/mce/steps.py:14-22 | the chain with a caller-given registry, which `run_simple_agent` itself never passes: a registry lacking `"search"` makes it fail with `"Tool not found: search"` |

## Left out

- `src/mce/llm.py` is not part of this model. It is an HTTP client with environment lookup and JSON decoding.
- `synthesize_answer_openrouter` and `run_openrouter_agent` (src/mce/steps.py:35-59, 79-89) are not modelled, because they call an external chat service.
- `src/mce/__main__.py` (console printing) and `src/mce/__init__.py` (re-exports) are not part of this model.
- `asyncio` scheduling is not modelled. The thunks of a gather are evaluated in list order. Only the order-preserving result of `asyncio.gather` is kept.
- Monads.AsyncAgentMonad: a user-supplied run function that raises is not modelled. Such an exception escapes `then` uncaught, and under `asyncio.gather` which exception escapes depends on timing.
- Monads.GatherSync: the flows of one gather share one value type. Python allows a mixed list.
- Monads.GatherSync: a `merge_state` that raises is not modelled. Its exception escapes `gather_sync` and the run of `gather` uncaught (src/mce/monads.py:114, 135); the model takes `merge_state` as a total function.
- Monads.Failure: `error_info` accepts any Python value, and the model allows only `None`, a string or a caught exception. The combinators only pass `error_info` along unchanged, so no behaviour is lost for other values.
- Monads.Map: the map function's result is always a value. A function that returns `None` is not distinguished from one that returns a value.
- Monads.Start: a state that is itself `None` is not distinguished from any other state.
- Exceptions outside Python's `Exception` class (such as `KeyboardInterrupt`), which `then` would not catch, are not modelled.
- Models.ToolCall: argument values are strings. These are the only values the repository passes. Formatting another value with `str()` is not modelled.
- Pydantic validation and `model_copy` internals are not modelled. `AgentState`, `ToolCall` and `ToolResult` are plain datatypes.
- The code of a caller's `merge_state` function and of tool handlers other than `search_tool` is not modelled. They are function parameters.
- The repository has no `get`, `modify` or `lift` constructors, so none are modelled.
