/** The superseded failure handler (lib/default-error-response.js).  An
    array of errors is first folded into one error; the status defaults to
    500; the body is `{error, code, stack}` with the stack always attached;
    the headers come from `event.options.headers`. */
module DefaultErrorResponse {
  import opened Js
  import DefaultResponse

  /** Messages of the TypeErrors the runtime throws. */
  const NullStatusRead: string := "Cannot read properties of null or undefined (reading 'status')"

  /** `errors.map(er => er.message)`: throws at a null or undefined element. */
  function Messages(errors: seq<JsValue>, rt: Runtime): (r: Result<seq<JsValue>>)
    ensures r.Success? <==> forall i :: 0 <= i < |errors| ==> !(errors[i].Null? || errors[i].Undefined?)
    ensures r.Success? ==> |r.value| == |errors|
    ensures r.Success? ==> forall i :: 0 <= i < |errors| ==> r.value[i] == Get(errors[i], "message")
    decreases |errors|
  {
    if errors == [] then Success([])
    else if errors[0].Null? || errors[0].Undefined? then
      Failure(TypeError("Cannot read properties of " + (if errors[0].Null? then "null" else "undefined") + " (reading 'message')", rt))
    else
      var rest := Messages(errors[1..], rt);
      if rest.Failure? then rest
      else Success([Get(errors[0], "message")] + rest.value)
  }

  /** `e[0] && e[0].status` */
  function FirstStatus(errors: seq<JsValue>): JsValue
  {
    if errors == [] then Undefined
    else if Truthy(errors[0]) then Get(errors[0], "status")
    else errors[0]
  }

  /** The error the handler works with: an array becomes
      `{status: <first element's status>, message: <all messages in order>}`;
      anything else is kept. */
  function Aggregate(err: JsValue, rt: Runtime): (r: Result<JsValue>)
    ensures !err.Arr? ==> r == Success(err)
  {
    if err.Arr? then
      var messages := Messages(err.elems, rt);
      if messages.Failure? then Failure(messages.error)
      else Success(Obj(map["status" := FirstStatus(err.elems), "message" := Arr(messages.value)]))
    else Success(err)
  }

  /** The body that is serialised: the message under `error`, the status code
      under `code`, and the stack. */
  function LegacyErrorBody(e: JsValue): JsValue
  {
    Obj(map["error" := Get(e, "message"), "code" := Or(Get(e, "status"), Num(500)), "stack" := Get(e, "stack")])
  }

  /** What the handler emits: a single callback `(null, res)`, or the error
      it throws. */
  function LegacyErrorRun(err: JsValue, options: Slot, rt: Runtime): (r: Run)
    reads Refs(options)
  {
    var headers := DefaultResponse.OptionsHeaders(options, rt);
    if headers.Failure? then Run([], Some(headers.error))
    else
      var e := Aggregate(err, rt);
      if e.Failure? then Run([], Some(e.error))
      else if e.value.Null? || e.value.Undefined? then Run([], Some(TypeError(NullStatusRead, rt)))
      else
        var res := WireResponse(Or(Get(e.value, "status"), Num(500)), rt.stringify(LegacyErrorBody(e.value)), headers.value);
        Run([Delivered(Null, res)], None)
  }

  /** An array of errors without null or undefined elements becomes one error
      whose status is the first element's `status` when that element is
      truthy (undefined for a primitive), and the falsy element itself
      otherwise, and whose message is the
      list of the elements' messages in order; the empty array gives status
      500 and an empty list. */
  lemma ArrayOfErrorsAggregates(errors: seq<JsValue>, rt: Runtime)
    requires forall i :: 0 <= i < |errors| ==> !(errors[i].Null? || errors[i].Undefined?)
    ensures var e := Aggregate(Arr(errors), rt);
      && e.Success?
      && Get(e.value, "message").Arr? && |Get(e.value, "message").elems| == |errors|
      && (forall i :: 0 <= i < |errors| ==> Get(e.value, "message").elems[i] == Get(errors[i], "message"))
      && (errors != [] && Truthy(errors[0]) ==> Get(e.value, "status") == Get(errors[0], "status"))
      && (errors != [] && !Truthy(errors[0]) ==> Get(e.value, "status") == errors[0])
      && (errors == [] ==> Or(Get(e.value, "status"), Num(500)) == Num(500) && Get(e.value, "message") == Arr([]))
  {
  }

  /** For an options object and an error that aggregates to a non-null value:
      exactly one callback `(null, res)`, status `e.status || 500`, a body
      that always carries the stack key, and `event.options.headers` as the
      headers. */
  lemma LegacyErrorDelivers(err: JsValue, options: Slot, rt: Runtime)
    requires options.Ref?
    requires Aggregate(err, rt).Success? && !(Aggregate(err, rt).value.Null? || Aggregate(err, rt).value.Undefined?)
    ensures var r := LegacyErrorRun(err, options, rt);
      var e := Aggregate(err, rt).value;
      && r.thrown.None? && Deliveries(r.emitted) == 1
      && r.emitted == [Delivered(Null, WireResponse(Or(Get(e, "status"), Num(500)), rt.stringify(LegacyErrorBody(e)),
                                                    PropOf(options.obj.props, "headers")))]
      && "stack" in LegacyErrorBody(e).props
      && Get(LegacyErrorBody(e), "code") == Or(Get(e, "status"), Num(500))
      && Get(LegacyErrorBody(e), "error") == Get(e, "message")
  {
    var r := LegacyErrorRun(err, options, rt);
    assert r.emitted[1..] == [];
  }

  /** `defaultErrorResponse(err, event, context, callback)`. */
  method LegacyRespondToError(err: JsValue, event: JsObject, rt: Runtime) returns (r: Run)
    ensures r == LegacyErrorRun(err, PropOf(event.props, "options"), rt)
  {
    var headers := DefaultResponse.OptionsHeaders(PropOf(event.props, "options"), rt);
    if headers.Failure? {
      r := Run([], Some(headers.error));
      return;
    }
    var e := err;
    if e.Arr? {
      var messages := Messages(e.elems, rt);
      if messages.Failure? {
        r := Run([], Some(messages.error));
        return;
      }
      e := Obj(map["status" := FirstStatus(e.elems), "message" := Arr(messages.value)]);
    }
    if e.Null? || e.Undefined? {
      r := Run([], Some(TypeError(NullStatusRead, rt)));
      return;
    }
    var statusCode := Or(Get(e, "status"), Num(500));
    var body := map["error" := Get(e, "message"), "code" := statusCode];
    body := body["stack" := Get(e, "stack")];
    var res := WireResponse(statusCode, rt.stringify(Obj(body)), headers.value);
    r := Run([Delivered(Null, res)], None);
  }
}
