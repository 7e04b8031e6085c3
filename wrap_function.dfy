/** The handler adapter (lib/wrapFunction.js): a non-function is refused; a
    function whose constructor is `AsyncFunction` is returned as it is; any
    other function is lifted so that a call returns `Promise.resolve` of
    whatever it returns. */
module WrapFunction {
  import opened Js

  /** `fn.constructor.name`: `AsyncFunction`, `Function` or `GeneratorFunction`. */
  datatype FnKind = Async | Sync | Generator

  /** How running a function body ends: it returns a value or throws. */
  datatype Completion = Returned(value: JsValue) | Threw(error: JsValue)

  /** A function value: its kind and what running its body does. */
  datatype Callable = Callable(kind: FnKind, body: seq<JsValue> -> Completion)

  /** What `wrapFunction` is given: a function, or any other value. */
  datatype Handler = Function(fn: Callable) | NotAFunction(value: JsValue)

  /** What a call returns: a value, or a generator object whose body has
      not run. */
  datatype ReturnValue = Value(value: JsValue) | GeneratorOf(pending: Callable, args: seq<JsValue>)

  /** What calling a function hands back to the caller: the returned value
      itself, a promise that resolves or rejects, or an exception thrown out
      of the call itself. */
  datatype CallResult =
    | Returns(returned: ReturnValue)
    | Resolves(resolved: ReturnValue)
    | Rejects(error: JsValue)
    | ThrowsSync(error: JsValue)

  /** The adapted handler: the same function, or the lifted one. */
  datatype Adapted = Same(fn: Callable) | Lifted(fn: Callable)

  const NotAFunctionMessage: string := "Handler should be a function"

  /** Calling a function directly: an async function always returns a
      promise, settled by its body; a generator function returns a generator
      object and runs nothing; a plain function returns or throws. */
  function Call(fn: Callable, args: seq<JsValue>): CallResult
  {
    match fn.kind
    case Async =>
      var c := fn.body(args);
      if c.Returned? then Resolves(Value(c.value)) else Rejects(c.error)
    case Generator => Returns(GeneratorOf(fn, args))
    case Sync =>
      var c := fn.body(args);
      if c.Returned? then Returns(Value(c.value)) else ThrowsSync(c.error)
  }

  /** `Promise.resolve(v)` of what a call handed back; the exception of a
      call that threw escapes before `Promise.resolve` runs. */
  function Resolve(r: CallResult): CallResult
  {
    match r
    case Returns(v) => Resolves(v)
    case _ => r
  }

  /** `wrapFunction(fn)` */
  function Adapt(h: Handler, rt: Runtime): (r: Result<Adapted>)
    ensures r.Failure? <==> h.NotAFunction?
    ensures r.Failure? ==> Get(r.error, "message") == Str(NotAFunctionMessage)
    ensures h.Function? && h.fn.kind.Async? ==> r == Success(Same(h.fn))
    ensures h.Function? && !h.fn.kind.Async? ==> r == Success(Lifted(h.fn))
  {
    match h
    case NotAFunction(_) => Failure(ErrorObject(NotAFunctionMessage, Undefined, rt.trace))
    case Function(fn) =>
      if fn.kind.Async? then Success(Same(fn)) else Success(Lifted(fn))
  }

  /** Calling the adapted handler. */
  function Invoke(a: Adapted, args: seq<JsValue>): CallResult
  {
    match a
    case Same(fn) => Call(fn, args)
    case Lifted(fn) => Resolve(Call(fn, args))
  }

  /** The adapted handler behaves like the function on every call, except
      that what a lifted function returns comes back as a resolved promise. */
  lemma AdaptedAgreesWithFunction(fn: Callable, args: seq<JsValue>, rt: Runtime)
    ensures var a := Adapt(Function(fn), rt).value;
      && (Call(fn, args).Returns? ==> Invoke(a, args) == Resolves(Call(fn, args).returned))
      && (!Call(fn, args).Returns? ==> Invoke(a, args) == Call(fn, args))
  {
  }

  /** A call to the adapted handler always hands back a promise, unless a
      plain function throws synchronously: that exception escapes the call
      and is not turned into a rejected promise. */
  lemma AdaptedReturnsPromise(fn: Callable, args: seq<JsValue>, rt: Runtime)
    ensures var r := Invoke(Adapt(Function(fn), rt).value, args);
      && !r.Returns?
      && (r.ThrowsSync? <==> fn.kind.Sync? && fn.body(args).Threw?)
      && (fn.kind.Sync? && fn.body(args).Threw? ==> r.error == fn.body(args).error)
      && (fn.kind.Sync? && fn.body(args).Returned? ==> r == Resolves(Value(fn.body(args).value)))
  {
  }

  /** A generator function is lifted like a plain one: the call resolves to
      the generator object and never runs the generator's body. */
  lemma GeneratorNotDriven(fn: Callable, args: seq<JsValue>, rt: Runtime)
    requires fn.kind.Generator?
    ensures Invoke(Adapt(Function(fn), rt).value, args) == Resolves(GeneratorOf(fn, args))
  {
  }
}
