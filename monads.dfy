/**
 * The result-and-composition algebra of the agent framework: a frozen record
 * `AgentMonad(state, value, is_successful, error_info)`, its combinators
 * `then`, `map` and `apply`, its constructors, the deterministic `gather_sync`,
 * and `AsyncAgentMonad` as a record holding a thunk that yields an `AgentMonad`.
 *
 * Python's "raises" is an explicit `Outcome`: a continuation, a map function
 * or a tool handler either returns a value or raises an `Exception`.
 */
module Monads {

  /** Python's `X | None`. */
  datatype Option<+T> = None | Some(value: T)

  /** A Python exception: its class name and `str(exc)`. */
  datatype Exception = Exception(kind: string, message: string)

  /** What a Python call did: it returned a value, or it raised. */
  datatype Outcome<+T> = Returned(value: T) | Raised(exc: Exception)

  /**
   * The `error_info: Any` slot, with the values the repository stores there:
   * `None` (the default of a successful record), a string supplied by a caller,
   * or an exception caught by `then`.
   */
  datatype ErrorInfo = NoInfo | Text(text: string) | Caught(exc: Exception)

  /** What `_require_value` raises on a record whose value is `None`. */
  const NoValueError: Exception := Exception("ValueError", "AgentMonad has no value.")

  /** The error of `gather` / `gather_sync` on an empty list of flows. */
  const NoFlowsError: ErrorInfo := Text("No flows provided")

  /** The frozen record; every field can be set directly by its constructor. */
  datatype AgentMonad<S, V> = AgentMonad(state: S, value: Option<V>, isSuccessful: bool, errorInfo: ErrorInfo)

  /** A record the named constructors build: a success holds a value and no error,
      a failure holds no value. */
  predicate WellFormed<S, V>(m: AgentMonad<S, V>) {
    if m.isSuccessful then m.value.Some? && m.errorInfo == NoInfo else m.value.None?
  }

  /** `AgentMonad.success(state, value)`. */
  function Success<S, V>(state: S, value: V): (m: AgentMonad<S, V>)
    ensures m.isSuccessful && WellFormed(m)
    ensures m.state == state && m.value == Some(value)
  {
    AgentMonad(state, Some(value), true, NoInfo)
  }

  /** `AgentMonad.failure(state, error_info)`: the state given is kept. */
  function Failure<S, V>(state: S, errorInfo: ErrorInfo): (m: AgentMonad<S, V>)
    ensures !m.isSuccessful && WellFormed(m)
    ensures m.state == state && m.errorInfo == errorInfo
  {
    AgentMonad(state, None, false, errorInfo)
  }

  /** `AgentMonad.start(state, initial_value)` with an initial value that is not `None`. */
  function Start<S, V>(state: S, initialValue: V): (m: AgentMonad<S, V>)
    ensures m.isSuccessful && WellFormed(m)
    ensures m.state == state && m.value == Some(initialValue)
  {
    AgentMonad(state, Some(initialValue), true, NoInfo)
  }

  /** `AgentMonad.start(state)` (or with `initial_value=None`): the state is its own value. */
  function StartFromState<S>(state: S): (m: AgentMonad<S, S>)
    ensures m.isSuccessful && WellFormed(m)
    ensures m.state == state && m.value == Some(state)
  {
    AgentMonad(state, Some(state), true, NoInfo)
  }

  /** `_require_value`: the value, or a raised `ValueError` when it is `None`. */
  function RequireValue<S, V>(m: AgentMonad<S, V>): (r: Outcome<V>)
    ensures r.Raised? <==> m.value.None?
    ensures r.Raised? ==> r.exc == NoValueError
    ensures r.Returned? ==> m.value == Some(r.value)
  {
    match m.value
    case None => Raised(NoValueError)
    case Some(v) => Returned(v)
  }

  /** The `except Exception as exc: return AgentMonad.failure(state, exc)` of `then`. */
  function Catch<S, R>(state: S, o: Outcome<AgentMonad<S, R>>): (m: AgentMonad<S, R>)
    ensures o.Returned? ==> m == o.value
    ensures o.Raised? ==> m == Failure(state, Caught(o.exc))
  {
    match o
    case Returned(next) => next
    case Raised(e) => Failure(state, Caught(e))
  }

  /**
   * `then`: a failure is passed on with its own state and error and `func` is not
   * consulted; otherwise `func` is applied to the state and the value, and a
   * missing value or an exception of `func` becomes a failure that keeps the
   * current state.
   */
  function Then<S, V, R>(m: AgentMonad<S, V>, func: (S, V) -> Outcome<AgentMonad<S, R>>): (r: AgentMonad<S, R>)
    ensures !m.isSuccessful ==> r == Failure(m.state, m.errorInfo)
    ensures m.isSuccessful && m.value.None? ==> r == Failure(m.state, Caught(NoValueError))
    ensures m.isSuccessful && m.value.Some? ==> r == Catch(m.state, func(m.state, m.value.value))
    ensures r.isSuccessful ==> m.isSuccessful && m.value.Some? && func(m.state, m.value.value) == Returned(r)
  {
    if !m.isSuccessful then
      Failure(m.state, m.errorInfo)
    else
      match RequireValue(m)
      case Raised(e) => Failure(m.state, Caught(e))
      case Returned(v) => Catch(m.state, func(m.state, v))
  }

  /**
   * `map`: keeps the state; a failure keeps its error, a success gets `func(value)`.
   * Nothing is caught here: a missing value or an exception of `func` is raised
   * to the caller.
   */
  function Map<S, V, R>(m: AgentMonad<S, V>, func: V -> Outcome<R>): (r: Outcome<AgentMonad<S, R>>)
    ensures r.Returned? ==> r.value.state == m.state && WellFormed(r.value)
    ensures !m.isSuccessful ==> r == Returned(Failure(m.state, m.errorInfo))
    ensures m.isSuccessful && m.value.Some? && func(m.value.value).Returned? ==>
              r == Returned(Success(m.state, func(m.value.value).value))
    ensures r.Raised? <==> m.isSuccessful && (m.value.None? || func(m.value.value).Raised?)
    ensures m.isSuccessful && m.value.None? ==> r == Raised(NoValueError)
  {
    if !m.isSuccessful then
      Returned(Failure(m.state, m.errorInfo))
    else
      match RequireValue(m)
      case Raised(e) => Raised(e)
      case Returned(v) =>
        match func(v)
        case Raised(e) => Raised(e)
        case Returned(x) => Returned(Success(m.state, x))
  }

  /**
   * `apply`: a failure on either side gives a failure with `m`'s state and the
   * error of the first side that failed; otherwise the function held by
   * `funcFlow` is mapped over `m`. Nothing is caught.
   */
  function Apply<S, V, R>(m: AgentMonad<S, V>, funcFlow: AgentMonad<S, V -> Outcome<R>>): (r: Outcome<AgentMonad<S, R>>)
    ensures r.Returned? ==> r.value.state == m.state
    ensures !m.isSuccessful ==> r == Returned(Failure(m.state, m.errorInfo))
    ensures m.isSuccessful && !funcFlow.isSuccessful ==> r == Returned(Failure(m.state, funcFlow.errorInfo))
    ensures m.isSuccessful && funcFlow.isSuccessful && funcFlow.value.Some? ==> r == Map(m, funcFlow.value.value)
    ensures m.isSuccessful && funcFlow.isSuccessful && funcFlow.value.None? ==> r == Raised(NoValueError)
  {
    if !m.isSuccessful || !funcFlow.isSuccessful then
      var error := if !m.isSuccessful then m.errorInfo else funcFlow.errorInfo;
      Returned(Failure(m.state, error))
    else
      match RequireValue(funcFlow)
      case Raised(e) => Raised(e)
      case Returned(func) => Map(m, func)
  }

  // ---------------------------------------------------------------------------
  // gather_sync

  /** Every flow of the list succeeded. */
  predicate AllSucceeded<S, V>(flows: seq<AgentMonad<S, V>>) {
    forall j :: 0 <= j < |flows| ==> flows[j].isSuccessful
  }

  /** Position `i` holds the first failing flow of the list. */
  predicate FirstFailureAt<S, V>(flows: seq<AgentMonad<S, V>>, i: int) {
    0 <= i < |flows| && !flows[i].isSuccessful && forall j :: 0 <= j < i ==> flows[j].isSuccessful
  }

  /** `[result for result in collected if not result.is_successful]`. */
  function Failures<S, V>(flows: seq<AgentMonad<S, V>>): (errors: seq<AgentMonad<S, V>>)
    ensures |errors| <= |flows|
    ensures forall k :: 0 <= k < |errors| ==> !errors[k].isSuccessful && errors[k] in flows
  {
    if flows == [] then []
    else if !flows[0].isSuccessful then [flows[0]] + Failures(flows[1..])
    else Failures(flows[1..])
  }

  /** `[result.state for result in collected]`. */
  function States<S, V>(flows: seq<AgentMonad<S, V>>): (states: seq<S>)
    ensures |states| == |flows|
    ensures forall k :: 0 <= k < |flows| ==> states[k] == flows[k].state
  {
    seq(|flows|, k requires 0 <= k < |flows| => flows[k].state)
  }

  /** `[result.value for result in collected]`. */
  function Values<S, V>(flows: seq<AgentMonad<S, V>>): (values: seq<Option<V>>)
    ensures |values| == |flows|
    ensures forall k :: 0 <= k < |flows| ==> values[k] == flows[k].value
  {
    seq(|flows|, k requires 0 <= k < |flows| => flows[k].value)
  }

  /** The filtered list of failures is empty exactly when every flow succeeded. */
  lemma {:induction false} FailuresEmptyIff<S, V>(flows: seq<AgentMonad<S, V>>)
    ensures Failures(flows) == [] <==> AllSucceeded(flows)
  {
    if flows != [] {
      FailuresEmptyIff(flows[1..]);
      if flows[0].isSuccessful && AllSucceeded(flows[1..]) {
        forall j | 0 <= j < |flows| ensures flows[j].isSuccessful {
          if j > 0 { assert flows[j] == flows[1..][j - 1]; }
        }
      }
    }
  }

  /** The head of the filtered list of failures is the first failing flow by position. */
  lemma {:induction false} FailuresHead<S, V>(flows: seq<AgentMonad<S, V>>, i: int)
    requires FirstFailureAt(flows, i)
    ensures Failures(flows) != [] && Failures(flows)[0] == flows[i]
  {
    if i > 0 {
      assert flows[0].isSuccessful;
      forall j | 0 <= j < i - 1 ensures flows[1..][j].isSuccessful {
        assert flows[1..][j] == flows[j + 1];
      }
      assert FirstFailureAt(flows[1..], i - 1);
      FailuresHead(flows[1..], i - 1);
    }
  }

  /** A list whose head and tail all succeed all succeeds. */
  lemma AllSucceededTail<S, V>(flows: seq<AgentMonad<S, V>>)
    requires flows != [] && flows[0].isSuccessful
    ensures AllSucceeded(flows[1..]) ==> AllSucceeded(flows)
  {
    if AllSucceeded(flows[1..]) {
      forall j | 0 <= j < |flows| ensures flows[j].isSuccessful {
        if j > 0 { assert flows[j] == flows[1..][j - 1]; }
      }
    }
  }

  /** A list that does not all succeed has a first failing position. */
  lemma {:induction false} FirstFailureExists<S, V>(flows: seq<AgentMonad<S, V>>)
    requires !AllSucceeded(flows)
    ensures exists i :: FirstFailureAt(flows, i)
  {
    if flows[0].isSuccessful {
      AllSucceededTail(flows);
      FirstFailureExists(flows[1..]);
      var i :| FirstFailureAt(flows[1..], i);
      forall j | 0 <= j < i + 1 ensures flows[j].isSuccessful {
        if j > 0 { assert flows[j] == flows[1..][j - 1]; }
      }
      assert FirstFailureAt(flows, i + 1);
    } else {
      assert FirstFailureAt(flows, 0);
    }
  }

  /**
   * The state `gather` reports when every flow succeeded: `merge_state` of all
   * the states in input order when one is given, otherwise the last flow's state.
   */
  function MergedState<S, V>(flows: seq<AgentMonad<S, V>>, mergeState: Option<seq<S> -> S>): (s: S)
    requires flows != []
    ensures mergeState.Some? ==> s == mergeState.value(States(flows))
    ensures mergeState.None? ==> s == flows[|flows| - 1].state
  {
    if mergeState.Some? then mergeState.value(States(flows)) else flows[|flows| - 1].state
  }

  /**
   * `gather_sync`: an empty list fails with a `None` state; otherwise the first
   * failing flow by position decides the failure; otherwise the result holds
   * every value in input order and the last state, or the merged states.
   */
  function GatherSync<S, V>(flows: seq<AgentMonad<S, V>>, mergeState: Option<seq<S> -> S>): (r: AgentMonad<Option<S>, seq<Option<V>>>)
    ensures WellFormed(r)
    ensures r.isSuccessful <==> flows != [] && AllSucceeded(flows)
    ensures flows == [] ==> r == Failure(None, NoFlowsError)
    ensures forall i :: FirstFailureAt(flows, i) ==> r == Failure(Some(flows[i].state), flows[i].errorInfo)
    ensures flows != [] && AllSucceeded(flows) ==>
              r == Success(Some(MergedState(flows, mergeState)), Values(flows))
  {
    FailuresEmptyIff(flows);
    forall i | FirstFailureAt(flows, i)
      ensures Failures(flows) != [] && Failures(flows)[0] == flows[i]
    {
      FailuresHead(flows, i);
    }
    if flows == [] then
      Failure(None, NoFlowsError)
    else
      var errors := Failures(flows);
      if errors != [] then
        var failing := errors[0];
        Failure(Some(failing.state), failing.errorInfo)
      else
        var states := States(flows);
        var finalState := if mergeState.Some? then mergeState.value(states) else states[|states| - 1];
        Success(Some(finalState), Values(flows))
  }

  // ---------------------------------------------------------------------------
  // AsyncAgentMonad: a record holding the run function it was built with

  datatype AsyncAgentMonad<S, V> = AsyncAgentMonad(runFunc: () -> AgentMonad<S, V>)
  {
    /** `run`: calls the stored run function afresh each time; nothing is memoised. */
    function Run(): (r: AgentMonad<S, V>)
      ensures r == runFunc()
    {
      runFunc()
    }
  }

  /** `AsyncAgentMonad.start(state, initial_value)` with a value that is not `None`. */
  function AsyncStart<S, V>(state: S, initialValue: V): (flow: AsyncAgentMonad<S, V>)
    ensures flow.Run().isSuccessful
    ensures flow.Run() == Start(state, initialValue)
  {
    AsyncAgentMonad(() => Start(state, initialValue))
  }

  /** `AsyncAgentMonad.start(state)`: the state is its own value. */
  function AsyncStartFromState<S>(state: S): (flow: AsyncAgentMonad<S, S>)
    ensures flow.Run().isSuccessful
    ensures flow.Run() == StartFromState(state)
  {
    AsyncAgentMonad(() => StartFromState(state))
  }

  /**
   * `AsyncAgentMonad.then`: running the new flow runs `flow` and continues it
   * exactly as `then` does, so a failure short-circuits with its state and error.
   */
  function AsyncThen<S, V, R>(flow: AsyncAgentMonad<S, V>, func: (S, V) -> Outcome<AgentMonad<S, R>>): (r: AsyncAgentMonad<S, R>)
    ensures !flow.Run().isSuccessful ==> r.Run() == Failure(flow.Run().state, flow.Run().errorInfo)
    ensures r.Run() == Then(flow.Run(), func)
  {
    AsyncAgentMonad(() => Then(flow.Run(), func))
  }

  /** The results of `asyncio.gather(*(flow.run() for flow in flows))`, in input order. */
  function RunAll<S, V>(flows: seq<AsyncAgentMonad<S, V>>): (results: seq<AgentMonad<S, V>>)
    ensures |results| == |flows|
    ensures forall k :: 0 <= k < |flows| ==> results[k] == flows[k].Run()
  {
    seq(|flows|, k requires 0 <= k < |flows| => flows[k].Run())
  }

  /**
   * `AsyncAgentMonad.gather`: running it combines the flows' results, in input
   * order, exactly as `gather_sync` does.
   */
  function AsyncGather<S, V>(flows: seq<AsyncAgentMonad<S, V>>, mergeState: Option<seq<S> -> S>): (r: AsyncAgentMonad<Option<S>, seq<Option<V>>>)
    ensures r.Run() == GatherSync(RunAll(flows), mergeState)
    ensures flows == [] ==> r.Run() == Failure(None, NoFlowsError)
  {
    AsyncAgentMonad(() => GatherSync(RunAll(flows), mergeState))
  }
}
