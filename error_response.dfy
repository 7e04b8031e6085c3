/** The default failure handler (lib/errorResponse.js): status from the
    error (default 500), a `{message, code}` body that is logged, a `stack`
    added to that same body only when `event.isOffline` is truthy, and the
    result delivered as an ordinary response through the callback. */
module ErrorResponse {
  import opened Js

  /** Messages of the TypeErrors the runtime throws. */
  const ErrorDestructure: string := "Cannot destructure the error"

  /** `error.status || 500` */
  function ErrorStatus(err: JsValue): (code: JsValue)
    ensures Truthy(code)
    ensures Truthy(Get(err, "status")) ==> code == Get(err, "status")
    ensures !Truthy(Get(err, "status")) ==> code == Num(500)
  {
    Or(Get(err, "status"), Num(500))
  }

  /** The body as `logger.error` receives it: the message and the status code. */
  function LoggedBody(err: JsValue): JsValue
  {
    Obj(map["message" := Get(err, "message"), "code" := ErrorStatus(err)])
  }

  /** The body that is serialised: the logged body, plus `stack` when offline. */
  function SentBody(err: JsValue, isOffline: Slot): JsValue
  {
    if SlotTruthy(isOffline) then Obj(LoggedBody(err).props["stack" := Get(err, "stack")])
    else LoggedBody(err)
  }

  /** What the handler emits: one `logger.error(body)`, then one callback
      `(null, res)`.  Destructuring a null or undefined error throws instead. */
  function ErrorRun(err: JsValue, headers: Slot, isOffline: Slot, rt: Runtime): (r: Run)
    ensures r.thrown.None? <==> !(err.Null? || err.Undefined?)
  {
    if err.Null? || err.Undefined? then Run([], Some(TypeError(ErrorDestructure, rt)))
    else
      var statusCode := ErrorStatus(err);
      var res := WireResponse(statusCode, rt.stringify(SentBody(err, isOffline)), headers);
      Run([ErrorLogged(LoggedBody(err)), Delivered(Null, res)], None)
  }

  /** For any error that is not null or undefined, however malformed: the
      callback fires exactly once, with `(null, res)`, after the log call; the
      status is the error's truthy `status` or 500; the body carries the
      message and `code` equal to the status; the stack is in the sent body
      exactly when `isOffline` is truthy and never in the logged one; the
      headers are passed through as they are. */
  lemma ErrorResponseDelivers(err: JsValue, headers: Slot, isOffline: Slot, rt: Runtime)
    requires !(err.Null? || err.Undefined?)
    ensures var r := ErrorRun(err, headers, isOffline, rt);
      && |r.emitted| == 2 && Deliveries(r.emitted) == 1
      && r.emitted[0] == ErrorLogged(LoggedBody(err)) && r.emitted[1].Delivered? && r.emitted[1].err == Null
      && var res := r.emitted[1].res;
      && res.statusCode == (if Truthy(Get(err, "status")) then Get(err, "status") else Num(500))
      && res.headers == headers
      && res.body == rt.stringify(SentBody(err, isOffline))
  {
    var r := ErrorRun(err, headers, isOffline, rt);
    assert r.emitted[1..][1..] == [];
  }

  /** The stack is attached only when offline, and never logged. */
  lemma StackOnlyWhenOffline(err: JsValue, isOffline: Slot)
    ensures "stack" in SentBody(err, isOffline).props <==> SlotTruthy(isOffline)
    ensures "stack" !in LoggedBody(err).props
    ensures Get(SentBody(err, isOffline), "message") == Get(err, "message")
    ensures Get(SentBody(err, isOffline), "code") == ErrorStatus(err)
    ensures SlotTruthy(isOffline) ==> Get(SentBody(err, isOffline), "stack") == Get(err, "stack")
  {
  }

  /** `errorResponse(error, event, context, callback, logger)`. */
  method RespondToError(err: JsValue, event: JsObject, rt: Runtime) returns (r: Run)
    ensures r == ErrorRun(err, PropOf(event.props, "headers"), PropOf(event.props, "isOffline"), rt)
  {
    var headers := PropOf(event.props, "headers");
    if err.Null? || err.Undefined? {
      r := Run([], Some(TypeError(ErrorDestructure, rt)));
      return;
    }
    var status, message, stack := Get(err, "status"), Get(err, "message"), Get(err, "stack");
    var statusCode := Or(status, Num(500));
    var body := map["message" := message, "code" := statusCode];
    var emitted := [ErrorLogged(Obj(body))];
    if SlotTruthy(PropOf(event.props, "isOffline")) {
      body := body["stack" := stack];
    }
    var res := WireResponse(statusCode, rt.stringify(Obj(body)), headers);
    r := Run(emitted + [Delivered(Null, res)], None);
  }
}
