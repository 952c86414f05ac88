/**
 * Laws of `then`, `map` and `apply` on the `AgentMonad` record, and the
 * repository's own test cases for them, stated over the model.
 */
module MonadLaws {
  import opened Monads

  /** Sequencing two continuations: run `f`, then `g` on what `f` returned. */
  function Kleisli<S, U, V, W>(f: (S, U) -> Outcome<AgentMonad<S, V>>, g: (S, V) -> Outcome<AgentMonad<S, W>>): (S, U) -> Outcome<AgentMonad<S, W>>
  {
    (s: S, u: U) =>
      match f(s, u)
      case Returned(next) => Returned(Then(next, g))
      case Raised(e) => Raised(e)
  }

  /** The continuation that succeeds with the state and value it is given. */
  function Unit<S, V>(): (S, V) -> Outcome<AgentMonad<S, V>> {
    (s: S, v: V) => Returned(Success(s, v))
  }

  /** A continuation that succeeds with `func` applied to the value, or raises what `func` raises. */
  function SuccessAfter<S, V, R>(func: V -> Outcome<R>): (S, V) -> Outcome<AgentMonad<S, R>> {
    (s: S, v: V) =>
      match func(v)
      case Returned(x) => Returned(Success(s, x))
      case Raised(e) => Raised(e)
  }

  /** Short-circuit: after a failure the continuation is never consulted, so any two give the same result. */
  lemma ThenIgnoresContinuationAfterFailure<S, V, R>(m: AgentMonad<S, V>, f: (S, V) -> Outcome<AgentMonad<S, R>>, g: (S, V) -> Outcome<AgentMonad<S, R>>)
    requires !m.isSuccessful
    ensures Then(m, f) == Then(m, g)
    ensures Then(m, f).state == m.state && Then(m, f).errorInfo == m.errorInfo
  {
  }

  /** A chain that fails part-way ends with that failure, whatever the later steps are. */
  lemma FailurePropagates<S, V, U, R>(m: AgentMonad<S, V>, e: ErrorInfo, f: (S, U) -> Outcome<AgentMonad<S, R>>)
    requires m.isSuccessful && m.value.Some?
    ensures var failing: (S, V) -> Outcome<AgentMonad<S, U>> := (s: S, v: V) => Returned(Failure(s, e));
            Then(Then(m, failing), f) == Failure(m.state, e)
  {
  }

  /** Left identity: continuing a fresh success is the continuation itself, with exceptions caught. */
  lemma LeftIdentity<S, V, R>(s: S, x: V, f: (S, V) -> Outcome<AgentMonad<S, R>>)
    ensures Then(Success(s, x), f) == Catch(s, f(s, x))
    ensures f(s, x).Returned? ==> Then(Start(s, x), f) == f(s, x).value
  {
  }

  /** Right identity holds for every record the named constructors can build. */
  lemma RightIdentity<S, V>(m: AgentMonad<S, V>)
    requires WellFormed(m)
    ensures Then(m, Unit()) == m
  {
  }

  /** ... and fails for a success without a value: `then` turns it into a failure. */
  lemma RightIdentityNeedsValue<S, V>(s: S)
    ensures var m: AgentMonad<S, V> := AgentMonad(s, None, true, NoInfo);
            Then(m, Unit()) == Failure(s, Caught(NoValueError)) != m
  {
  }

  /** Associativity: regrouping two `then` steps does not change the result. */
  lemma Associativity<S, U, V, W>(m: AgentMonad<S, U>, f: (S, U) -> Outcome<AgentMonad<S, V>>, g: (S, V) -> Outcome<AgentMonad<S, W>>)
    ensures Then(Then(m, f), g) == Then(m, Kleisli(f, g))
  {
  }

  /** `map` is `then` with a success-building continuation, once its exceptions are caught as `then` catches them. */
  lemma MapIsThen<S, V, R>(m: AgentMonad<S, V>, func: V -> Outcome<R>)
    ensures Catch(m.state, Map(m, func)) == Then(m, SuccessAfter(func))
  {
  }

  /** `map` with the function that returns its argument gives back every well-formed record. */
  lemma MapIdentity<S, V>(m: AgentMonad<S, V>)
    requires WellFormed(m)
    ensures Map(m, (v: V) => Returned(v)) == Returned(m)
  {
  }

  /** `apply` of a successful function flow is `map` of the function it holds. */
  lemma ApplyIsMap<S, V, R>(m: AgentMonad<S, V>, s: S, func: V -> Outcome<R>)
    ensures Apply(m, Success(s, func)) == Map(m, func)
  {
  }

  // ---------------------------------------------------------------------------
  // The repository's test cases, stated over the model

  /** `start("state", "start").then(lambda s, v: success(s, v + "-next"))`. */
  lemma ThenSuccessCase()
    ensures var flow := Then(Start("state", "start"), (s: string, v: string) => Returned(Success(s, v + "-next")));
            flow.isSuccessful && flow.value == Some("start-next")
  {
    assert "start" + "-next" == "start-next";
  }

  /** `failure("state", "error").then(...)` keeps the error. */
  lemma ThenFailureCase()
    ensures var flow := Then(Failure<string, string>("state", Text("error")), (s: string, v: string) => Returned(Success(s, v)));
            !flow.isSuccessful && flow.errorInfo == Text("error")
  {
  }

  /** `start("state", 2).map(lambda v: v + 1)` and `.apply(start("state", lambda v: v * 5))`. */
  lemma MapApplyCase()
    ensures Map(Start("state", 2), (v: int) => Returned(v + 1)) == Returned(Success("state", 3))
    ensures Apply(Start("state", 2), Start("state", (v: int) => Returned(v * 5))) == Returned(Success("state", 10))
  {
  }

  /** Two async flows doubling 2 and 3, gathered: `[4, 6]` in input order. */
  lemma AsyncGatherCase()
    ensures var step := (s: string, v: int) => Returned(Success("state", v * 2));
            var flowA := AsyncThen(AsyncStart("state", 2), step);
            var flowB := AsyncThen(AsyncStart("state", 3), step);
            var result := AsyncGather([flowA, flowB], None).Run();
            result.isSuccessful && result.value == Some([Some(4), Some(6)])
  {
    var step := (s: string, v: int) => Returned(Success("state", v * 2));
    var flowA := AsyncThen(AsyncStart("state", 2), step);
    var flowB := AsyncThen(AsyncStart("state", 3), step);
    var results := RunAll([flowA, flowB]);
    assert results == [Success("state", 4), Success("state", 6)];
    assert AllSucceeded(results);
    assert Values(results) == [Some(4), Some(6)];
  }
}
