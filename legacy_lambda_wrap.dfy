/** The superseded request wrapper (lib/lambda-wrap.js).  The same builder
    and the same stage chain as lib/lambdaWrap.js, with three differences:
    a catch stage receives only the error; the whole options object is
    attached to the event as `event.options` on every call instead of being
    merged key by key; and the response handlers are called without a
    logger. */
module LegacyLambdaWrap {
  import opened Js
  import opened Stages
  import Response
  import DefaultResponse
  import DefaultErrorResponse

  /** The success handler: lib/default-response.js, or one assigned by the user. */
  datatype ResponseHandler =
    | DefaultResponse
    | CustomResponse(respond: (JsValue, map<string, Slot>) -> Run)

  /** The failure handler: lib/default-error-response.js, or one assigned by the user. */
  datatype ErrorResponseHandler =
    | DefaultErrorResponse
    | CustomErrorResponse(respond: (JsValue, map<string, Slot>) -> Run)

  const CallbackWaits: string := "callbackWaitsForEmptyEventLoop"

  /** A catch stage that is given only the error: it cannot see the event or
      the context, so it leaves the state as it found it. */
  function ErrorOnlyCatch<S>(handle: JsValue -> Outcome): (stage: Stage<S>)
    ensures stage.Catch?
  {
    Catch((e, s) => Step(s, handle(e)))
  }

  /** What the success handler emits.  `hasLogger` says whether a logger is
      passed: the call site in lib/lambda-wrap.js passes none. */
  function SuccessRun(rh: ResponseHandler, data: JsValue, event: map<string, Slot>, rt: Runtime, hasLogger: bool): Run
    reads Refs(PropOf(event, "options"))
  {
    match rh
    case DefaultResponse => DefaultResponse.LegacyResponseRun(data, PropOf(event, "options"), rt, hasLogger)
    case CustomResponse(respond) => respond(data, event)
  }

  /** What the failure handler emits. */
  function FailureRun(erh: ErrorResponseHandler, err: JsValue, event: map<string, Slot>, rt: Runtime): Run
    reads Refs(PropOf(event, "options"))
  {
    match erh
    case DefaultErrorResponse => DefaultErrorResponse.LegacyErrorRun(err, PropOf(event, "options"), rt)
    case CustomErrorResponse(respond) => respond(err, event)
  }

  /** `chain.then(data => responseHandler(...)).catch(err => errorResponseHandler(...))`. */
  function Route(outcome: Outcome, rh: ResponseHandler, erh: ErrorResponseHandler,
                 event: map<string, Slot>, rt: Runtime, hasLogger: bool): Run
    reads Refs(PropOf(event, "options"))
  {
    match outcome
    case Ok(data) =>
      var first := SuccessRun(rh, data, event, rt, hasLogger);
      if first.thrown.None? then first
      else
        var second := FailureRun(erh, first.thrown.value, event, rt);
        Run(first.emitted + second.emitted, second.thrown)
    case Err(e) => FailureRun(erh, e, event, rt)
  }

  /** As written, with the default handlers: data that negotiates and an
      options object whose `headers` is an object never reach the client as
      a success.  The handler logs the data to the console, writes the
      content type, then fails calling `log` on the missing logger; the error
      handler turns that TypeError into a 500 response, and that is the one
      callback. */
  lemma SuccessBecomesServerError(data: JsValue, options: JsObject, event: map<string, Slot>, rt: Runtime)
    requires PropOf(event, "options") == Ref(options)
    requires PropOf(options.props, "headers").Ref?
    requires Response.Negotiate(data, rt).Success?
    ensures var r := Route(Ok(data), DefaultResponse, DefaultErrorResponse, event, rt, false);
      && r.thrown.None? && Deliveries(r.emitted) == 1
      && r.emitted[|r.emitted| - 1].Delivered?
      && r.emitted[|r.emitted| - 1].res.statusCode == Num(500)
      && forall k :: 0 <= k < |r.emitted| ==> !r.emitted[k].Logged?
  {
    var first := DefaultResponse.LegacyResponseRun(data, Ref(options), rt, false);
    DefaultResponse.NeverDeliversWithoutLogger(data, Ref(options), rt);
    var e := first.thrown.value;
    assert first.emitted == [ConsoleLogged(data)];
    assert !Truthy(Get(e, "status"));
    DefaultErrorResponse.LegacyErrorDelivers(e, Ref(options), rt);
    var second := DefaultErrorResponse.LegacyErrorRun(e, Ref(options), rt);
    DeliveriesAppend(first.emitted, second.emitted);
  }

  /** Corrected, with a logger passed as lib/lambdaWrap.js passes one: the
      same data is delivered as a success, once, with its own status. */
  lemma SuccessDeliveredWithLogger(data: JsValue, options: JsObject, event: map<string, Slot>, rt: Runtime)
    requires PropOf(event, "options") == Ref(options)
    requires PropOf(options.props, "headers").Ref?
    requires Response.Negotiate(data, rt).Success?
    ensures var r := Route(Ok(data), DefaultResponse, DefaultErrorResponse, event, rt, true);
      && r.thrown.None? && Deliveries(r.emitted) == 1
      && r.emitted[|r.emitted| - 1] == Delivered(Null, WireResponse(
           if data.Str? then Num(200) else Get(data, "statusCode"), rt.stringify(data), PropOf(options.props, "headers")))
  {
    DefaultResponse.DeliversWithLogger(data, Ref(options), rt);
  }

  /** A catch stage given only the error recovers or rethrows without
      changing the state the later stages see. */
  lemma CatchKeepsState<S>(handle: JsValue -> Outcome, err: JsValue, s: S)
    ensures Apply(ErrorOnlyCatch(handle), Step(s, Err(err))) == Step(s, handle(err))
  {
  }

  /** The headers object after the call: the default success handler writes
      the content type into `event.options.headers` whenever it runs. */
  function HeadersAfter(props: map<string, Slot>, outcome: Outcome, rh: ResponseHandler, rt: Runtime): map<string, Slot>
  {
    if outcome.Ok? && rh.DefaultResponse? then Response.WithContentType(props, outcome.value, rt) else props
  }

  class Wrapper<S> {
    var middlewareHandlers: seq<Stage<S>>
    var catchHandlers: seq<Stage<S>>
    var responseHandler: ResponseHandler
    var errorResponseHandler: ErrorResponseHandler
    const options: JsObject

    /** Every stage sits in the list of its type. */
    ghost predicate Valid()
      reads this
    {
      && (forall i :: 0 <= i < |middlewareHandlers| ==> middlewareHandlers[i].Middleware?)
      && (forall i :: 0 <= i < |catchHandlers| ==> catchHandlers[i].Catch?)
    }

    /** `LambdaWrap(options)`: both lists empty, the default handlers. */
    constructor (options: JsObject)
      ensures Valid() && this.options == options
      ensures middlewareHandlers == [] && catchHandlers == []
      ensures responseHandler == DefaultResponse && errorResponseHandler == DefaultErrorResponse
    {
      this.options := options;
      middlewareHandlers := [];
      catchHandlers := [];
      responseHandler := DefaultResponse;
      errorResponseHandler := DefaultErrorResponse;
    }

    /** `wrap.before(fn)` */
    method Before(run: S -> Step<S>)
      requires Valid()
      modifies this`middlewareHandlers
      ensures Valid()
      ensures middlewareHandlers == old(middlewareHandlers) + [Middleware(run)]
      ensures catchHandlers == old(catchHandlers)
    {
      middlewareHandlers := middlewareHandlers + [Middleware(run)];
    }

    /** `wrap.catch(fn)`: the stage is given the error alone. */
    method Catch(handle: JsValue -> Outcome)
      requires Valid()
      modifies this`catchHandlers
      ensures Valid()
      ensures catchHandlers == old(catchHandlers) + [ErrorOnlyCatch(handle)]
      ensures middlewareHandlers == old(middlewareHandlers)
    {
      catchHandlers := catchHandlers + [ErrorOnlyCatch(handle)];
    }

    /** `wrap.responseHandler = …` */
    method SetResponseHandler(rh: ResponseHandler)
      modifies this`responseHandler
      ensures responseHandler == rh
    {
      responseHandler := rh;
    }

    /** `wrap.errorResponseHandler = …` */
    method SetErrorResponseHandler(erh: ErrorResponseHandler)
      modifies this`errorResponseHandler
      ensures errorResponseHandler == erh
    {
      errorResponseHandler := erh;
    }

    /** `wrap(fn)` */
    method Wrap(handler: S -> Step<S>) returns (invoker: Invoker<S>)
      ensures fresh(invoker) && invoker.wrapper == this && invoker.handler == handler
    {
      invoker := new Invoker(this, handler);
    }
  }

  /** The failure handler on the live event. */
  method RespondToFailure(erh: ErrorResponseHandler, err: JsValue, event: JsObject, rt: Runtime) returns (r: Run)
    ensures r == FailureRun(erh, err, event.props, rt)
  {
    match erh
    case DefaultErrorResponse =>
      r := DefaultErrorResponse.LegacyRespondToError(err, event, rt);
    case CustomErrorResponse(respond) =>
      r := respond(err, event.props);
  }

  /** The routing on the live event, as written: no logger is passed. */
  method Dispatch(outcome: Outcome, rh: ResponseHandler, erh: ErrorResponseHandler, event: JsObject,
                  options: JsObject, rt: Runtime) returns (r: Run)
    requires PropOf(event.props, "options") == Ref(options)
    requires PropOf(options.props, "headers") !in {Ref(event), Ref(options)}
    modifies Refs(PropOf(options.props, "headers"))
    ensures r == Route(outcome, rh, erh, event.props, rt, false)
    ensures forall h :: h in old(Refs(PropOf(options.props, "headers"))) ==>
      h.props == HeadersAfter(old(h.props), outcome, rh, rt)
  {
    match outcome {
    case Ok(data) =>
      var first: Run;
      if rh.DefaultResponse? {
        first := DefaultResponse.LegacyRespond(data, event, rt, false);
      } else {
        first := rh.respond(data, event.props);
      }
      if first.thrown.None? {
        r := first;
      } else {
        var second := RespondToFailure(erh, first.thrown.value, event, rt);
        r := Run(first.emitted + second.emitted, second.thrown);
      }
    case Err(e) =>
      r := RespondToFailure(erh, e, event, rt);
    }
  }

  /** What `wrap(fn)` returns. */
  class Invoker<S> {
    const wrapper: Wrapper<S>
    const handler: S -> Step<S>

    constructor (wrapper: Wrapper<S>, handler: S -> Step<S>)
      ensures this.wrapper == wrapper && this.handler == handler
    {
      this.wrapper := wrapper;
      this.handler := handler;
    }

    /** One call `(event, context, callback)`, as written: the response
        handlers get no logger. */
    method Call(event: JsObject, context: JsObject, s0: S, rt: Runtime) returns (final: Step<S>, r: Run)
      requires wrapper.Valid()
      requires event != context && wrapper.options != event && wrapper.options != context
      requires PropOf(wrapper.options.props, "headers") !in {Ref(event), Ref(context), Ref(wrapper.options)}
      modifies event, context, Refs(PropOf(wrapper.options.props, "headers"))
      ensures context.props == old(context.props)[CallbackWaits := Val(Bool(false))]
      ensures event.props == old(event.props)["options" := Ref(wrapper.options)]
      ensures final == Fold(Chain(wrapper.middlewareHandlers, handler, wrapper.catchHandlers), Step(s0, Start))
      ensures r == Route(final.outcome, wrapper.responseHandler, wrapper.errorResponseHandler, event.props, rt, false)
      ensures forall h :: h in old(Refs(PropOf(wrapper.options.props, "headers"))) ==>
        h.props == HeadersAfter(old(h.props), final.outcome, wrapper.responseHandler, rt)
    {
      context.props := context.props[CallbackWaits := Val(Bool(false))];
      event.props := event.props["options" := Ref(wrapper.options)];
      var chain := wrapper.middlewareHandlers + [Wrapped(handler)] + wrapper.catchHandlers;
      final := RunChain(chain, Step(s0, Start));
      r := Dispatch(final.outcome, wrapper.responseHandler, wrapper.errorResponseHandler, event, wrapper.options, rt);
    }
  }
}
