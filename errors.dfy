/** Status-tagged error factories (lib/error.js).  Each factory returns a
    fresh `Error` whose `status` is an HTTP status code from sections 15.5
    and 15.6 of RFC 9110.  A factory's message argument is optional: `None`
    stands for a call without one (or with `undefined`), which selects the
    default message. */
module Errors {
  import opened Js

  /** `error(message, code)`: an Error with that message and `status` set to `code`. */
  function Error(message: string, code: int, rt: Runtime): (r: JsValue)
    ensures Get(r, "message") == Str(message)
    ensures Get(r, "status") == Num(code)
    ensures Get(r, "stack") == Str(rt.trace)
  {
    ErrorObject(message, Num(code), rt.trace)
  }

  /** The message an optional argument selects: the default when absent. */
  function MessageOr(message: Option<string>, default: string): string
  {
    if message.Some? then message.value else default
  }

  /** The named factories, keyed by the status each one sets. */
  datatype Factory =
    | BadRequest
    | Unauthorized
    | Forbidden
    | NotFound
    | UnprocessableEntity
    | InternalServerError
    | ServiceUnavailable

  function StatusOf(f: Factory): int
  {
    match f
    case BadRequest => 400
    case Unauthorized => 401
    case Forbidden => 403
    case NotFound => 404
    case UnprocessableEntity => 422
    case InternalServerError => 500
    case ServiceUnavailable => 503
  }

  function DefaultMessage(f: Factory): string
  {
    match f
    case BadRequest => "Bad request"
    case Unauthorized => "Unauthorized"
    case Forbidden => "Forbidden"
    case NotFound => "Not found"
    case UnprocessableEntity => "Unprocessable entity"
    case InternalServerError => "Internal server error"
    case ServiceUnavailable => "Service unavailable"
  }

  /** `error.badRequest(message)`, `error.notFound(message)`, … */
  function Make(f: Factory, message: Option<string>, rt: Runtime): (r: JsValue)
    ensures Get(r, "status") == Num(StatusOf(f))
    ensures message.None? ==> Get(r, "message") == Str(DefaultMessage(f))
    ensures message.Some? ==> Get(r, "message") == Str(message.value)
  {
    Error(MessageOr(message, DefaultMessage(f)), StatusOf(f), rt)
  }

  /** The client-error factories give a 4xx status, the server-error ones a
      5xx status, and no two factories share a status. */
  lemma FactoryStatusClasses(f: Factory, g: Factory)
    ensures 400 <= StatusOf(f) < 500 <==> f in {BadRequest, Unauthorized, Forbidden, NotFound, UnprocessableEntity}
    ensures 500 <= StatusOf(f) < 600 <==> f in {InternalServerError, ServiceUnavailable}
    ensures StatusOf(f) == StatusOf(g) ==> f == g
  {
  }

  /** An explicit message replaces the default and leaves the status alone:
      the two calls differ only in the message. */
  lemma ExplicitMessageKeepsStatus(f: Factory, m: string, rt: Runtime)
    ensures Get(Make(f, Some(m), rt), "status") == Get(Make(f, None, rt), "status")
    ensures Make(f, Some(m), rt) == Make(f, None, rt).(props := Make(f, None, rt).props["message" := Str(m)])
  {
  }
}
