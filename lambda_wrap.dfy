/** The request wrapper (lib/lambdaWrap.js).  A `Wrapper` keeps two
    append-only lists of typed stages and the two response handlers;
    `Wrap(handler)` returns an `Invoker` that, on each call, marks the
    context, merges the options into the event, folds the stage chain, and
    routes success to the response handler and failure (of the chain, or of
    the response handler itself) to the error response handler.

    Both handler lists and both response handlers are fields of the wrapper
    that the invoker reads when it is called, not when it is created. */
module LambdaWrap {
  import opened Js
  import opened Stages
  import opened OptionMerge
  import Response
  import ErrorResponse

  /** The success handler: lib/response.js, or one assigned by the user.  A
      user handler sees the data and the event's properties. */
  datatype ResponseHandler =
    | DefaultResponse
    | CustomResponse(respond: (JsValue, map<string, Slot>) -> Run)

  /** The failure handler: lib/errorResponse.js, or one assigned by the user. */
  datatype ErrorResponseHandler =
    | DefaultErrorResponse
    | CustomErrorResponse(respond: (JsValue, map<string, Slot>) -> Run)

  const CallbackWaits: string := "callbackWaitsForEmptyEventLoop"

  /** What the success handler emits; `headers` is the object the default
      handler uses. */
  function SuccessRun(rh: ResponseHandler, data: JsValue, event: map<string, Slot>, headers: Slot, rt: Runtime): Run
  {
    match rh
    case DefaultResponse => Response.ResponseRun(data, headers, rt)
    case CustomResponse(respond) => respond(data, event)
  }

  /** What the failure handler emits. */
  function FailureRun(erh: ErrorResponseHandler, err: JsValue, event: map<string, Slot>, rt: Runtime): Run
  {
    match erh
    case DefaultErrorResponse => ErrorResponse.ErrorRun(err, PropOf(event, "headers"), PropOf(event, "isOffline"), rt)
    case CustomErrorResponse(respond) => respond(err, event)
  }

  /** `chain.then(data => responseHandler(...)).catch(err => errorResponseHandler(...))`:
      an error the failure handler throws is an unhandled rejection. */
  function Route(outcome: Outcome, rh: ResponseHandler, erh: ErrorResponseHandler,
                 event: map<string, Slot>, headers: Slot, rt: Runtime): (r: Run)
  {
    match outcome
    case Ok(data) =>
      var first := SuccessRun(rh, data, event, headers, rt);
      if first.thrown.None? then first
      else
        var second := FailureRun(erh, first.thrown.value, event, rt);
        Run(first.emitted + second.emitted, second.thrown)
    case Err(e) => FailureRun(erh, e, event, rt)
  }

  /** A failed chain never consults the success handler or its headers:
      whatever is assigned as `responseHandler`, the call emits and throws the
      same.  With the default success handler, a successful chain reaches the
      error handler exactly when content negotiation fails, and then with the
      negotiation's own error and nothing emitted before it. */
  lemma RoutingTargets(e: JsValue, data: JsValue, rh: ResponseHandler, rh': ResponseHandler, erh: ErrorResponseHandler,
                       event: map<string, Slot>, headers: Slot, headers': Slot, rt: Runtime)
    ensures Route(Err(e), rh, erh, event, headers, rt) == Route(Err(e), rh', erh, event, headers', rt)
    ensures Route(Ok(data), DefaultResponse, erh, event, headers, rt)
         == if Response.Negotiate(data, rt).Success? then Response.ResponseRun(data, headers, rt)
            else FailureRun(erh, Response.Negotiate(data, rt).error, event, rt)
  {
    var first := Response.ResponseRun(data, headers, rt);
    if first.thrown.Some? {
      assert first.emitted + FailureRun(erh, first.thrown.value, event, rt).emitted
          == FailureRun(erh, first.thrown.value, event, rt).emitted;
    }
  }

  /** With the default handlers the callback fires exactly once per call;
      the only way it does not fire is a chain that rejects with `null` or
      `undefined`, which the error handler cannot destructure. */
  lemma DefaultsDeliverExactlyOnce(outcome: Outcome, event: map<string, Slot>, headers: Slot, rt: Runtime)
    ensures var r := Route(outcome, DefaultResponse, DefaultErrorResponse, event, headers, rt);
      && (r.thrown.Some? <==> outcome.Err? && (outcome.error.Null? || outcome.error.Undefined?))
      && Deliveries(r.emitted) == (if r.thrown.None? then 1 else 0)
  {
    var r := Route(outcome, DefaultResponse, DefaultErrorResponse, event, headers, rt);
    match outcome
    case Ok(data) =>
      var first := Response.ResponseRun(data, headers, rt);
      if first.thrown.None? {
        Response.SuccessfulResponse(data, headers, rt);
      } else {
        var e := first.thrown.value;
        assert !(e.Null? || e.Undefined?);
        ErrorResponse.ErrorResponseDelivers(e, PropOf(event, "headers"), PropOf(event, "isOffline"), rt);
        assert first.emitted == [];
        assert first.emitted + FailureRun(DefaultErrorResponse, e, event, rt).emitted
            == FailureRun(DefaultErrorResponse, e, event, rt).emitted;
      }
    case Err(e) =>
      if !(e.Null? || e.Undefined?) {
        ErrorResponse.ErrorResponseDelivers(e, PropOf(event, "headers"), PropOf(event, "isOffline"), rt);
      }
  }

  /** Data the chain settles to that negotiates is delivered as a success:
      one log call and one callback `(null, res)` whose status is the data's
      own (200 for a string) and whose body is the data serialised. */
  lemma SuccessDelivered(data: JsValue, erh: ErrorResponseHandler, event: map<string, Slot>, headers: Slot, rt: Runtime)
    requires Response.Negotiate(data, rt).Success?
    ensures var r := Route(Ok(data), DefaultResponse, erh, event, headers, rt);
      && r.thrown.None? && Deliveries(r.emitted) == 1
      && r.emitted[|r.emitted| - 1] == Delivered(Null, WireResponse(
           if data.Str? then Num(200) else Get(data, "statusCode"), rt.stringify(data), headers))
  {
    Response.SuccessfulResponse(data, headers, rt);
  }

  /** Data that fails negotiation is answered by the error handler with the
      400 error the negotiation threw (a `null` result: the TypeError, 500). */
  lemma NegotiationFailureAnswered(data: JsValue, event: map<string, Slot>, headers: Slot, rt: Runtime)
    requires Response.Negotiate(data, rt).Failure?
    ensures var e := Response.Negotiate(data, rt).error;
      var r := Route(Ok(data), DefaultResponse, DefaultErrorResponse, event, headers, rt);
      && r.thrown.None? && |r.emitted| == 2 && r.emitted[1].Delivered?
      && r.emitted[1].res.statusCode == (if data.Null? then Num(500) else Num(400))
  {
    var e := Response.Negotiate(data, rt).error;
    ErrorResponse.ErrorResponseDelivers(e, PropOf(event, "headers"), PropOf(event, "isOffline"), rt);
    assert [] + FailureRun(DefaultErrorResponse, e, event, rt).emitted == FailureRun(DefaultErrorResponse, e, event, rt).emitted;
  }

  /** Whether the default success handler wrote a content type. */
  predicate ContentTypeWritten(outcome: Outcome, rh: ResponseHandler, rt: Runtime)
  {
    outcome.Ok? && rh.DefaultResponse? && Response.Negotiate(outcome.value, rt).Success?
  }

  /** An object's properties after routing: the headers object gains the
      content type when it was written; every other object is untouched. */
  function AfterRouting(props: map<string, Slot>, o: JsObject, headers: Slot,
                        outcome: Outcome, rh: ResponseHandler, rt: Runtime): map<string, Slot>
  {
    if ContentTypeWritten(outcome, rh, rt) && headers == Ref(o) then Response.WithContentType(props, outcome.value, rt)
    else props
  }

  /** An event without truthy `headers` and an object under the `headers`
      option: the merge hands the event the options' object itself, and a
      successful default response then writes its content type into that
      object, which the options keep and share with every later call. */
  lemma OptionsHeadersShared(h: Heap, event: JsObject, options: Options, i: nat, data: JsValue, rt: Runtime)
    requires event in h && DistinctKeys(options)
    requires forall j :: 0 <= j < |options| ==> PropOf(h[event], options[j].0) != Ref(event)
    requires i < |options| && options[i].0 == "headers" && options[i].1.Ref? && options[i].1.obj in h
    requires !SlotTruthy(PropOf(h[event], "headers"))
    requires Response.Negotiate(data, rt).Success?
    ensures var merged := MergeAll(h, event, options);
      var shared := options[i].1.obj;
      && PropOf(merged[event], "headers") == Ref(shared)
      && AfterRouting(merged[shared], shared, PropOf(merged[event], "headers"), Ok(data), DefaultResponse, rt)["Content-Type"]
           == Val(Str(Response.Negotiate(data, rt).value))
  {
    EventSlotsAfterMerge(h, event, options);
  }

  class Wrapper<S> {
    var middlewareHandlers: seq<Stage<S>>
    var catchHandlers: seq<Stage<S>>
    var responseHandler: ResponseHandler
    var errorResponseHandler: ErrorResponseHandler
    const options: Options

    /** Every stage sits in the list of its type. */
    ghost predicate Valid()
      reads this
    {
      && (forall i :: 0 <= i < |middlewareHandlers| ==> middlewareHandlers[i].Middleware?)
      && (forall i :: 0 <= i < |catchHandlers| ==> catchHandlers[i].Catch?)
    }

    /** `lambdaWrap(options)`: both lists empty, the default handlers. */
    constructor (options: Options)
      requires DistinctKeys(options)
      ensures Valid() && this.options == options
      ensures middlewareHandlers == [] && catchHandlers == []
      ensures responseHandler == DefaultResponse && errorResponseHandler == DefaultErrorResponse
    {
      this.options := options;
      middlewareHandlers := [];
      catchHandlers := [];
      responseHandler := DefaultResponse;
      errorResponseHandler := DefaultErrorResponse;
    }

    /** `wrap.before(fn)`: one middleware stage at the end of its own list. */
    method Before(run: S -> Step<S>)
      requires Valid()
      modifies this`middlewareHandlers
      ensures Valid()
      ensures middlewareHandlers == old(middlewareHandlers) + [Middleware(run)]
      ensures catchHandlers == old(catchHandlers)
    {
      middlewareHandlers := middlewareHandlers + [Middleware(run)];
    }

    /** `wrap.catch(fn)`: one catch stage at the end of its own list. */
    method Catch(handle: (JsValue, S) -> Step<S>)
      requires Valid()
      modifies this`catchHandlers
      ensures Valid()
      ensures catchHandlers == old(catchHandlers) + [Stages.Catch(handle)]
      ensures middlewareHandlers == old(middlewareHandlers)
    {
      catchHandlers := catchHandlers + [Stages.Catch(handle)];
    }

    /** `wrap.responseHandler = …` */
    method SetResponseHandler(rh: ResponseHandler)
      modifies this`responseHandler
      ensures responseHandler == rh
    {
      responseHandler := rh;
    }

    /** `wrap.errorResponseHandler = …` */
    method SetErrorResponseHandler(erh: ErrorResponseHandler)
      modifies this`errorResponseHandler
      ensures errorResponseHandler == erh
    {
      errorResponseHandler := erh;
    }

    /** `wrap(fn)`: an invoker bound to this wrapper and the handler. */
    method Wrap(handler: S -> Step<S>) returns (invoker: Invoker<S>)
      ensures fresh(invoker) && invoker.wrapper == this && invoker.handler == handler
    {
      invoker := new Invoker(this, handler);
    }
  }

  /** `Object.assign(context, { callbackWaitsForEmptyEventLoop: false })` and
      the option merge: the part of a call that runs before any stage. */
  method Prepare(options: Options, event: JsObject, context: JsObject, ghost h0: Heap)
    requires h0 == Snapshot(Footprint(event, options))
    requires DistinctKeys(options) && NotSelfTarget(event, options)
    requires context !in Footprint(event, options)
    modifies context, Footprint(event, options)
    ensures context.props == old(context.props)[CallbackWaits := Val(Bool(false))]
    ensures Matches(MergeAll(h0, event, options))
    ensures Refs(PropOf(event.props, "headers")) <= Refs(PropOf(h0[event], "headers")) + h0.Keys
    ensures PropOf(h0[event], "headers") != Ref(event) && (forall i :: 0 <= i < |options| ==> options[i].1 != Ref(event)) ==>
      PropOf(event.props, "headers") != Ref(event)
  {
    assert event in h0 && h0[event] == event.props;
    MergedSlotRefs(h0, event, options, "headers");
    MergeOptions(event, options);
    ghost var merged := MergeAll(h0, event, options);
    assert context !in merged;
    context.props := context.props[CallbackWaits := Val(Bool(false))];
    assert Matches(merged) by {
      forall o | o in merged ensures o.props == merged[o] {
        assert o != context;
      }
    }
  }

  /** The failure handler on the live event. */
  method RespondToFailure(erh: ErrorResponseHandler, err: JsValue, event: JsObject, rt: Runtime) returns (r: Run)
    ensures r == FailureRun(erh, err, event.props, rt)
  {
    match erh
    case DefaultErrorResponse =>
      r := ErrorResponse.RespondToError(err, event, rt);
    case CustomErrorResponse(respond) =>
      r := respond(err, event.props);
  }

  /** The routing on the live event.  `headers` is the object the default
      success handler used; `others` are objects the caller keeps track of
      outside `h`. */
  method Dispatch(outcome: Outcome, rh: ResponseHandler, erh: ErrorResponseHandler, event: JsObject, rt: Runtime,
                  ghost h: Heap, ghost others: set<JsObject>)
    returns (r: Run, headers: Slot)
    requires Matches(h)
    requires PropOf(event.props, "headers") != Ref(event)
    modifies Refs(PropOf(event.props, "headers"))
    ensures event.props == old(event.props)
    ensures r == Route(outcome, rh, erh, event.props, headers, rt)
    ensures SlotTruthy(PropOf(event.props, "headers")) ==> headers == PropOf(event.props, "headers")
    ensures !SlotTruthy(PropOf(event.props, "headers")) && ContentTypeWritten(outcome, rh, rt) ==>
      headers.Ref? && fresh(headers.obj) && headers.obj.props == Response.WithContentType(map[], outcome.value, rt)
    ensures forall o :: o in old(Refs(PropOf(event.props, "headers"))) ==>
      o.props == AfterRouting(old(o.props), o, headers, outcome, rh, rt)
    ensures forall o :: o in h ==> o.props == AfterRouting(h[o], o, headers, outcome, rh, rt)
    ensures forall o :: o in others ==> o.props == AfterRouting(old(o.props), o, headers, outcome, rh, rt)
  {
    headers := PropOf(event.props, "headers");
    match outcome {
    case Ok(data) =>
      var first: Run;
      if rh.DefaultResponse? {
        first, headers := Response.Respond(data, event, rt);
      } else {
        first := rh.respond(data, event.props);
      }
      if first.thrown.None? {
        r := first;
      } else {
        var second := RespondToFailure(erh, first.thrown.value, event, rt);
        r := Run(first.emitted + second.emitted, second.thrown);
      }
    case Err(e) =>
      r := RespondToFailure(erh, e, event, rt);
    }
    forall o | o in h
      ensures o.props == AfterRouting(h[o], o, headers, outcome, rh, rt)
    {
      assert old(o.props) == h[o];
    }
    forall o | o in others && o !in old(Refs(PropOf(event.props, "headers")))
      ensures headers != Ref(o) || !ContentTypeWritten(outcome, rh, rt)
    {
    }
  }

  /** What `wrap(fn)` returns. */
  class Invoker<S> {
    const wrapper: Wrapper<S>
    const handler: S -> Step<S>

    constructor (wrapper: Wrapper<S>, handler: S -> Step<S>)
      ensures this.wrapper == wrapper && this.handler == handler
    {
      this.wrapper := wrapper;
      this.handler := handler;
    }

    /** One call `(event, context, callback)`.  `s0` is the state the stages
        start from; `final` is the step the chain settles to, `r` what was
        emitted, `headers` the headers object the default success handler
        used. */
    method Call(event: JsObject, context: JsObject, s0: S, rt: Runtime)
      returns (final: Step<S>, r: Run, headers: Slot)
      requires wrapper.Valid()
      requires DistinctKeys(wrapper.options) && NotSelfTarget(event, wrapper.options)
      requires forall i :: 0 <= i < |wrapper.options| ==> wrapper.options[i].1 != Ref(event)
      requires context !in Footprint(event, wrapper.options)
      requires PropOf(event.props, "headers") != Ref(event)
      requires context !in Refs(PropOf(event.props, "headers"))
      modifies context, Footprint(event, wrapper.options), Refs(PropOf(event.props, "headers"))
      ensures context.props == old(context.props)[CallbackWaits := Val(Bool(false))]
      ensures final == Fold(Chain(wrapper.middlewareHandlers, handler, wrapper.catchHandlers), Step(s0, Start))
      ensures var merged := MergeAll(old(Snapshot(Footprint(event, wrapper.options))), event, wrapper.options);
        && r == Route(final.outcome, wrapper.responseHandler, wrapper.errorResponseHandler, merged[event], headers, rt)
        && (SlotTruthy(PropOf(merged[event], "headers")) ==> headers == PropOf(merged[event], "headers"))
        && (!SlotTruthy(PropOf(merged[event], "headers")) && ContentTypeWritten(final.outcome, wrapper.responseHandler, rt) ==>
              headers.Ref? && fresh(headers.obj) && headers.obj.props == Response.WithContentType(map[], final.outcome.value, rt))
        && (forall o :: o in merged ==>
              o.props == AfterRouting(merged[o], o, headers, final.outcome, wrapper.responseHandler, rt))
      ensures forall o :: o in old(Refs(PropOf(event.props, "headers"))) && o !in old(Footprint(event, wrapper.options)) ==>
        o.props == AfterRouting(old(o.props), o, headers, final.outcome, wrapper.responseHandler, rt)
    {
      ghost var fp := Footprint(event, wrapper.options);
      assert event in fp;
      ghost var h0 := Snapshot(fp);
      ghost var merged := MergeAll(h0, event, wrapper.options);
      assert h0[event] == event.props;
      ghost var own := Refs(PropOf(event.props, "headers")) - fp;
      Prepare(wrapper.options, event, context, h0);
      var chain := wrapper.middlewareHandlers + [Wrapped(handler)] + wrapper.catchHandlers;
      final := RunChain(chain, Step(s0, Start));
      r, headers := Dispatch(final.outcome, wrapper.responseHandler, wrapper.errorResponseHandler, event, rt, merged, own);
    }
  }
}
