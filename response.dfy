/** The default success handler (lib/response.js): negotiate a content type
    from the shape of the data, write it into the event's headers object in
    place, and deliver `{statusCode, body, headers}` through the logger and
    the completion callback. */
module Response {
  import opened Js
  import Errors

  /** Messages of the TypeErrors the runtime throws. */
  const NullData: string := "Cannot read properties of null (reading 'statusCode')"

  const TextType: string := "text/plain"
  const JsonType: string := "application/json"
  const NegotiationFailed: string := "Auto negotiation of content type failed"

  /** The content type the data calls for, or the error thrown instead: a
      string is text; an object (`typeof data === 'object'`, arrays included)
      with a truthy `statusCode` is JSON; `null` fails reading `statusCode`;
      anything else is a 400 Bad Request. */
  function Negotiate(data: JsValue, rt: Runtime): (r: Result<string>)
    ensures r.Success? <==> data.Str? || ((data.Obj? || data.Arr?) && Truthy(Get(data, "statusCode")))
    ensures r.Success? ==> (r.value == TextType <==> data.Str?) && (r.value == JsonType <==> !data.Str?)
    ensures r.Failure? && !data.Null? ==>
      Get(r.error, "status") == Num(400) && Get(r.error, "message") == Str(NegotiationFailed)
    ensures data.Null? ==> r.Failure? && !Truthy(Get(r.error, "status"))
  {
    if data.Str? then Success(TextType)
    else if data.Null? then Failure(TypeError(NullData, rt))
    else if (data.Obj? || data.Arr?) && Truthy(Get(data, "statusCode")) then Success(JsonType)
    else Failure(Errors.Make(Errors.BadRequest, Some(NegotiationFailed), rt))
  }

  /** `data.statusCode || 200` */
  function StatusCode(data: JsValue): JsValue
  {
    Or(Get(data, "statusCode"), Num(200))
  }

  /** The headers object after negotiation: `Content-Type` overwritten, every
      other key kept; untouched when negotiation fails. */
  function WithContentType(props: map<string, Slot>, data: JsValue, rt: Runtime): (r: map<string, Slot>)
    ensures Negotiate(data, rt).Success? ==>
      r.Keys == props.Keys + {"Content-Type"} && r["Content-Type"] == Val(Str(Negotiate(data, rt).value))
    ensures forall k :: k in props && k != "Content-Type" ==> k in r && r[k] == props[k]
    ensures Negotiate(data, rt).Failure? ==> r == props
  {
    var n := Negotiate(data, rt);
    if n.Success? then props["Content-Type" := Val(Str(n.value))] else props
  }

  /** What the handler emits given the headers it uses: on success one
      `logger.log(res)` and then one callback `(null, res)`; on failure it
      throws and emits nothing. */
  function ResponseRun(data: JsValue, headers: Slot, rt: Runtime): (r: Run)
    ensures r.thrown.None? <==> Negotiate(data, rt).Success?
    ensures r.thrown.Some? ==> r.emitted == [] && r.thrown.value == Negotiate(data, rt).error
  {
    var n := Negotiate(data, rt);
    if n.Failure? then Run([], Some(n.error))
    else
      var res := WireResponse(StatusCode(data), rt.stringify(data), headers);
      Run([Logged(res), Delivered(Null, res)], None)
  }

  /** The response a successful run delivers: a string gets status 200, an
      object its own truthy `statusCode` (the `|| 200` default never applies
      to an object that passed negotiation); the body is the serialisation
      of the whole data, `statusCode` included; the headers are the object
      used, and the callback fires exactly once, after the log call. */
  lemma SuccessfulResponse(data: JsValue, headers: Slot, rt: Runtime)
    requires ResponseRun(data, headers, rt).thrown.None?
    ensures var r := ResponseRun(data, headers, rt);
      && |r.emitted| == 2 && r.emitted[0] == Logged(r.emitted[1].res)
      && r.emitted[1].Delivered? && r.emitted[1].err == Null
      && r.emitted[1].res.statusCode == (if data.Str? then Num(200) else Get(data, "statusCode"))
      && Truthy(r.emitted[1].res.statusCode)
      && r.emitted[1].res.body == rt.stringify(data)
      && r.emitted[1].res.headers == headers
      && Deliveries(r.emitted) == 1
  {
    var r := ResponseRun(data, headers, rt);
    assert r.emitted[1..][1..] == [];
  }

  /** `response(data, event, context, callback, logger)`.  `headers` is the
      object the response carries: `event.headers` when truthy, otherwise a
      fresh `{}`. */
  method Respond(data: JsValue, event: JsObject, rt: Runtime) returns (r: Run, headers: Slot)
    modifies Refs(PropOf(event.props, "headers"))
    ensures SlotTruthy(old(PropOf(event.props, "headers"))) ==> headers == old(PropOf(event.props, "headers"))
    ensures !SlotTruthy(old(PropOf(event.props, "headers"))) ==>
      headers.Ref? && fresh(headers.obj) && headers.obj.props == WithContentType(map[], data, rt)
    ensures SlotTruthy(old(PropOf(event.props, "headers"))) && headers.Ref? ==>
      headers.obj.props == WithContentType(old(headers.obj.props), data, rt)
    ensures r == ResponseRun(data, headers, rt)
  {
    var slot := PropOf(event.props, "headers");
    if SlotTruthy(slot) {
      headers := slot;
    } else {
      var empty := new JsObject(map[]);
      headers := Ref(empty);
    }
    var negotiated := Negotiate(data, rt);
    if negotiated.Failure? {
      r := Run([], Some(negotiated.error));
      return;
    }
    if headers.Ref? {
      headers.obj.props := headers.obj.props["Content-Type" := Val(Str(negotiated.value))];
    }
    var res := WireResponse(StatusCode(data), rt.stringify(data), headers);
    r := Run([Logged(res), Delivered(Null, res)], None);
  }
}
