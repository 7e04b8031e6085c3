/** The superseded success handler (lib/default-response.js).  It negotiates
    the content type exactly as lib/response.js does, but writes it into
    `event.options.headers` (the options object the wrapper shares across
    calls), logs the data to the console first, and calls `logger.log`, which
    throws when no logger is passed. */
module DefaultResponse {
  import opened Js
  import Response

  /** Messages of the TypeErrors the runtime throws. */
  const OptionsDestructure: string := "Cannot destructure 'event.options'"
  const NullishAssignTarget: string := "Cannot convert undefined or null to object"
  const NoLogger: string := "Cannot read properties of undefined (reading 'log')"

  /** `const { headers } = event.options`: throws when `event.options` is
      null or undefined; any other primitive has no `headers`. */
  function OptionsHeaders(options: Slot, rt: Runtime): (r: Result<Slot>)
    reads Refs(options)
    ensures r.Failure? <==> options == Val(Null) || options == Val(Undefined)
    ensures options.Ref? ==> r == Success(PropOf(options.obj.props, "headers"))
    ensures options.Val? && r.Success? ==> r.value == Val(Undefined)
  {
    match options
    case Ref(o) => Success(PropOf(o.props, "headers"))
    case Val(v) =>
      if v.Null? || v.Undefined? then Failure(TypeError(OptionsDestructure, rt))
      else Success(Val(Undefined))
  }

  /** `Object.assign(headers, …)` throws on a null or undefined target. */
  predicate AssignableTarget(headers: Slot)
  {
    headers.Ref? || !(headers.v.Null? || headers.v.Undefined?)
  }

  /** What the handler emits, given the options slot of the event and the
      headers slot read from it, with or without a logger argument. */
  function LegacyResponseRun(data: JsValue, options: Slot, rt: Runtime, hasLogger: bool): (r: Run)
    reads Refs(options)
  {
    var headers := OptionsHeaders(options, rt);
    if headers.Failure? then Run([], Some(headers.error))
    else
      var logged := [ConsoleLogged(data)];
      var n := Response.Negotiate(data, rt);
      if n.Failure? then Run(logged, Some(n.error))
      else if !AssignableTarget(headers.value) then
        Run(logged, Some(TypeError(NullishAssignTarget, rt)))
      else
        var res := WireResponse(Response.StatusCode(data), rt.stringify(data), headers.value);
        if !hasLogger then Run(logged, Some(TypeError(NoLogger, rt)))
        else Run(logged + [Logged(res), Delivered(Null, res)], None)
  }

  /** With a logger, data that negotiates and an options object whose
      `headers` is an object: the console line, one log call and then exactly
      one callback `(null, res)`, with the negotiated status and the headers
      object itself. */
  lemma DeliversWithLogger(data: JsValue, options: Slot, rt: Runtime)
    requires options.Ref? && PropOf(options.obj.props, "headers").Ref?
    requires Response.Negotiate(data, rt).Success?
    ensures var r := LegacyResponseRun(data, options, rt, true);
      && r.thrown.None? && Deliveries(r.emitted) == 1
      && r.emitted == [ConsoleLogged(data), Logged(r.emitted[2].res), Delivered(Null, r.emitted[2].res)]
      && r.emitted[2].res.statusCode == (if data.Str? then Num(200) else Get(data, "statusCode"))
      && r.emitted[2].res.body == rt.stringify(data)
      && r.emitted[2].res.headers == PropOf(options.obj.props, "headers")
  {
    var r := LegacyResponseRun(data, options, rt, true);
    var res := r.emitted[2].res;
    DeliveriesAppend([ConsoleLogged(data)], [Logged(res), Delivered(Null, res)]);
    assert [Logged(res), Delivered(Null, res)][1..][1..] == [];
  }

  /** Without a logger the handler always throws and the callback never
      fires: `logger.log(res)` reads a property of undefined. */
  lemma NeverDeliversWithoutLogger(data: JsValue, options: Slot, rt: Runtime)
    ensures LegacyResponseRun(data, options, rt, false).thrown.Some?
    ensures Deliveries(LegacyResponseRun(data, options, rt, false).emitted) == 0
  {
    var r := LegacyResponseRun(data, options, rt, false);
    assert r.emitted == [] || r.emitted == [ConsoleLogged(data)];
    assert [ConsoleLogged(data)][1..] == [];
  }

  /** The object `event.options.headers` refers to, if any. */
  function HeadersTarget(event: JsObject): set<JsObject>
    reads event, Refs(PropOf(event.props, "options"))
  {
    var options := PropOf(event.props, "options");
    if options.Ref? then Refs(PropOf(options.obj.props, "headers")) else {}
  }

  /** `response(data, event, context, callback, logger)`.  The content type
      is written into the headers object before the logger is called, so it
      stays written even when the call then throws. */
  method LegacyRespond(data: JsValue, event: JsObject, rt: Runtime, hasLogger: bool) returns (r: Run)
    modifies HeadersTarget(event)
    ensures r == old(LegacyResponseRun(data, PropOf(event.props, "options"), rt, hasLogger))
    ensures forall h :: h in old(HeadersTarget(event)) ==>
      h.props == Response.WithContentType(old(h.props), data, rt)
  {
    var options := PropOf(event.props, "options");
    var headersRead := OptionsHeaders(options, rt);
    if headersRead.Failure? {
      r := Run([], Some(headersRead.error));
      return;
    }
    var headers := headersRead.value;
    var emitted := [ConsoleLogged(data)];
    var negotiated := Response.Negotiate(data, rt);
    if negotiated.Failure? {
      r := Run(emitted, Some(negotiated.error));
      return;
    }
    if !AssignableTarget(headers) {
      r := Run(emitted, Some(TypeError(NullishAssignTarget, rt)));
      return;
    }
    if headers.Ref? {
      headers.obj.props := headers.obj.props["Content-Type" := Val(Str(negotiated.value))];
    }
    var res := WireResponse(Response.StatusCode(data), rt.stringify(data), headers);
    if !hasLogger {
      r := Run(emitted, Some(TypeError(NoLogger, rt)));
      return;
    }
    r := Run(emitted + [Logged(res), Delivered(Null, res)], None);
  }
}
