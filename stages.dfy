/** The stage chain both wrappers run on every invocation
    (lib/lambdaWrap.js:47-59, lib/lambda-wrap.js:25-34): the registered
    middleware, then the wrapped handler, then the registered catch stages,
    folded left to right over an outcome that starts as the resolved value of
    `Promise.all([])`, the empty array.

    A stage is a tagged total function.  What the stages read and change in
    the event and the context is threaded through the fold as a value of the
    type parameter `S`, so that a stage sees exactly what the stages before it
    left behind. */
module Stages {
  import opened Js

  /** A settled promise: resolved with a value, or rejected with an error. */
  datatype Outcome = Ok(value: JsValue) | Err(error: JsValue)

  /** The state a stage leaves behind and the outcome it settles to. */
  datatype Step<S> = Step(state: S, outcome: Outcome)

  /** A registered stage, tagged with its type: `MIDDLEWARE`, `WRAP` or
      `CATCH`.  Middleware and the wrapped handler see the state; a catch
      stage sees the error and the state. */
  datatype Stage<!S> =
    | Middleware(run: S -> Step<S>)
    | Wrapped(run: S -> Step<S>)
    | Catch(handle: (JsValue, S) -> Step<S>)

  /** The `then`-stages: middleware and the wrapped handler. */
  predicate IsThen<S>(stage: Stage<S>)
  {
    stage.Middleware? || stage.Wrapped?
  }

  /** One step of the fold: `acc.then(...)` for a middleware or handler
      stage, `acc.catch(...)` for a catch stage. */
  function Apply<S>(stage: Stage<S>, at: Step<S>): (r: Step<S>)
    ensures IsThen(stage) && at.outcome.Err? ==> r == at
    ensures stage.Catch? && at.outcome.Ok? ==> r == at
    ensures IsThen(stage) && at.outcome.Ok? ==> r == stage.run(at.state)
    ensures stage.Catch? && at.outcome.Err? ==> r == stage.handle(at.outcome.error, at.state)
  {
    match stage
    case Middleware(run) => if at.outcome.Ok? then run(at.state) else at
    case Wrapped(run) => if at.outcome.Ok? then run(at.state) else at
    case Catch(handle) => if at.outcome.Err? then handle(at.outcome.error, at.state) else at
  }

  /** The `reduce` over the chain. */
  function Fold<S>(chain: seq<Stage<S>>, at: Step<S>): Step<S>
    decreases |chain|
  {
    if chain == [] then at else Fold(chain[1..], Apply(chain[0], at))
  }

  /** The chain one invocation runs: middleware, the handler, catch stages. */
  function Chain<S>(middleware: seq<Stage<S>>, handler: S -> Step<S>, catches: seq<Stage<S>>): seq<Stage<S>>
  {
    middleware + [Wrapped(handler)] + catches
  }

  /** What `Promise.all([])` resolves to: the fold's starting outcome. */
  const Start: Outcome := Ok(Arr([]))

  /** The loop that runs the chain; it agrees with `Fold`. */
  method RunChain<S>(chain: seq<Stage<S>>, start: Step<S>) returns (r: Step<S>)
    ensures r == Fold(chain, start)
  {
    r := start;
    var i := 0;
    while i < |chain|
      invariant 0 <= i <= |chain|
      invariant Fold(chain[i..], r) == Fold(chain, start)
    {
      assert chain[i..][1..] == chain[i + 1..];
      r := Apply(chain[i], r);
      i := i + 1;
    }
    assert chain[i..] == [];
  }

  /** Folding a concatenation folds the first part, then the second. */
  lemma {:induction false} FoldAppend<S>(a: seq<Stage<S>>, b: seq<Stage<S>>, at: Step<S>)
    ensures Fold(a + b, at) == Fold(b, Fold(a, at))
    decreases |a|
  {
    if a == [] {
      assert a + b == b;
    } else {
      assert (a + b)[1..] == a[1..] + b;
      FoldAppend(a[1..], b, Apply(a[0], at));
    }
  }

  /** Execution order: all middleware in registration order, then the
      handler, then the catch stages in registration order. */
  lemma ChainOrder<S>(middleware: seq<Stage<S>>, handler: S -> Step<S>, catches: seq<Stage<S>>, at: Step<S>)
    ensures Fold(Chain(middleware, handler, catches), at)
         == Fold(catches, Apply(Wrapped(handler), Fold(middleware, at)))
  {
    FoldAppend(middleware + [Wrapped(handler)], catches, at);
    FoldAppend(middleware, [Wrapped(handler)], at);
  }

  /** After a failure no middleware and no handler runs: a run of
      `then`-stages leaves a failed step untouched. */
  lemma {:induction false} ThenStagesSkipFailure<S>(thens: seq<Stage<S>>, at: Step<S>)
    requires forall i :: 0 <= i < |thens| ==> IsThen(thens[i])
    requires at.outcome.Err?
    ensures Fold(thens, at) == at
    decreases |thens|
  {
    if thens != [] {
      ThenStagesSkipFailure(thens[1..], at);
    }
  }

  /** Catch stages do not run on success: a run of catch stages leaves a
      successful step untouched. */
  lemma {:induction false} CatchStagesSkipSuccess<S>(catches: seq<Stage<S>>, at: Step<S>)
    requires forall i :: 0 <= i < |catches| ==> catches[i].Catch?
    requires at.outcome.Ok?
    ensures Fold(catches, at) == at
    decreases |catches|
  {
    if catches != [] {
      CatchStagesSkipSuccess(catches[1..], at);
    }
  }

  /** A failure at middleware `k` skips the remaining middleware and the
      handler; the failed step, with its error and the state middleware `k`
      left, goes straight to the catch stages. */
  lemma MiddlewareFailureGoesToCatches<S>(middleware: seq<Stage<S>>, k: nat, handler: S -> Step<S>,
                                          catches: seq<Stage<S>>, at: Step<S>)
    requires forall i :: 0 <= i < |middleware| ==> middleware[i].Middleware?
    requires k < |middleware|
    requires Fold(middleware[..k + 1], at).outcome.Err?
    ensures Fold(Chain(middleware, handler, catches), at) == Fold(catches, Fold(middleware[..k + 1], at))
  {
    var failed := Fold(middleware[..k + 1], at);
    var rest := middleware[k + 1..] + [Wrapped(handler)];
    assert middleware + [Wrapped(handler)] + catches == middleware[..k + 1] + rest + catches;
    FoldAppend(middleware[..k + 1] + rest, catches, at);
    FoldAppend(middleware[..k + 1], rest, at);
    ThenStagesSkipFailure(rest, failed);
  }

  /** The first catch stage receives the error and the state of the failed
      step; a catch stage that recovers ends the catching, and the later ones
      do not run. */
  lemma RecoveryEndsCatching<S>(before: seq<Stage<S>>, c: (JsValue, S) -> Step<S>, after: seq<Stage<S>>, at: Step<S>)
    requires forall i :: 0 <= i < |after| ==> after[i].Catch?
    requires Fold(before, at).outcome.Err?
    requires c(Fold(before, at).outcome.error, Fold(before, at).state).outcome.Ok?
    ensures Fold(before + [Catch(c)] + after, at) == c(Fold(before, at).outcome.error, Fold(before, at).state)
  {
    FoldAppend(before + [Catch(c)], after, at);
    FoldAppend(before, [Catch(c)], at);
    CatchStagesSkipSuccess(after, c(Fold(before, at).outcome.error, Fold(before, at).state));
  }

  /** Catch stages that all throw: the fold stays failed and the error that
      surfaces is the one the last catch stage threw, from the error and state
      the previous one left. */
  lemma {:induction false} LastThrownErrorSurfaces<S>(catches: seq<Stage<S>>, at: Step<S>)
    requires forall i :: 0 <= i < |catches| ==> catches[i].Catch?
    requires forall i, e, s :: 0 <= i < |catches| ==> catches[i].handle(e, s).outcome.Err?
    requires at.outcome.Err?
    ensures Fold(catches, at).outcome.Err?
    ensures catches != [] ==>
      var prev := Fold(catches[..|catches| - 1], at);
      prev.outcome.Err? && Fold(catches, at) == catches[|catches| - 1].handle(prev.outcome.error, prev.state)
    decreases |catches|
  {
    if catches != [] {
      var n := |catches| - 1;
      var front := catches[..n];
      assert catches == front + [catches[n]];
      FoldAppend(front, [catches[n]], at);
      LastThrownErrorSurfaces(front, at);
    }
  }

  /** With middleware that all succeed, the data the chain settles to is what
      the handler returned: middleware return values are discarded and the
      catch stages do not run. */
  lemma HandlerValueIsResult<S>(middleware: seq<Stage<S>>, handler: S -> Step<S>, catches: seq<Stage<S>>, s: S, v: JsValue)
    requires forall i :: 0 <= i < |middleware| ==> middleware[i].Middleware?
    requires forall i, t :: 0 <= i < |middleware| ==> middleware[i].run(t).outcome.Ok?
    requires forall i :: 0 <= i < |catches| ==> catches[i].Catch?
    requires handler(Fold(middleware, Step(s, Ok(v))).state).outcome.Ok?
    ensures Fold(middleware, Step(s, Ok(v))).outcome.Ok?
    ensures Fold(Chain(middleware, handler, catches), Step(s, Ok(v)))
         == handler(Fold(middleware, Step(s, Ok(v))).state)
  {
    MiddlewareKeepsSucceeding(middleware, Step(s, Ok(v)));
    ChainOrder(middleware, handler, catches, Step(s, Ok(v)));
    CatchStagesSkipSuccess(catches, handler(Fold(middleware, Step(s, Ok(v))).state));
  }

  lemma {:induction false} MiddlewareKeepsSucceeding<S>(middleware: seq<Stage<S>>, at: Step<S>)
    requires forall i :: 0 <= i < |middleware| ==> middleware[i].Middleware?
    requires forall i, t :: 0 <= i < |middleware| ==> middleware[i].run(t).outcome.Ok?
    requires at.outcome.Ok?
    ensures Fold(middleware, at).outcome.Ok?
    decreases |middleware|
  {
    if middleware != [] {
      MiddlewareKeepsSucceeding(middleware[1..], Apply(middleware[0], at));
    }
  }

  /** Each stage that runs sees the state the stage before it left: two
      middleware in a row, the second observes what the first changed. */
  lemma LaterMiddlewareSeesEarlierChanges<S>(m1: S -> Step<S>, m2: S -> Step<S>, at: Step<S>)
    requires at.outcome.Ok? && m1(at.state).outcome.Ok?
    ensures Fold([Middleware(m1), Middleware(m2)], at) == m2(m1(at.state).state)
  {
    var chain := [Middleware(m1), Middleware(m2)];
    assert chain[1..] == [Middleware(m2)] && chain[1..][1..] == [];
    assert Fold(chain, at) == Fold([Middleware(m2)], m1(at.state));
  }
}
