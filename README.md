# lambda-wrap, modelled in Dafny

A model of the request wrapper that lambda-wrap puts around an AWS Lambda
handler. Two versions are covered:

- **lib/lambdaWrap.js**, the current wrapper. Each invocation does these steps in order:
  1. It sets `callbackWaitsForEmptyEventLoop` on the context.
  2. It merges the wrapper's options into the event, key by key.
  3. It runs the registered middleware, then the wrapped handler, then the registered catch stages, as one promise chain.
  4. It sends success to the response handler (lib/response.js). Failure, of the chain or of the response handler itself, goes to the error response handler (lib/errorResponse.js).
- **lib/lambda-wrap.js**, the older wrapper. It attaches the whole options object as `event.options`, and its catch stages see only the error. Its default handlers are lib/default-response.js and lib/default-error-response.js.

Beside the wrappers the model covers:

- the status-tagged error factories of lib/error.js;
- the log record builder and filter of lib/logFilters.js;
- the handler adapter of lib/wrapFunction.js.

Modules, one per file:

- `Js` (js.dfy) holds the value model.
  - Plain JavaScript values are the datatype `JsValue`.
  - The objects the wrapper changes in place (event, context, headers, options) are `JsObject`s with a `props` map. A property holds a plain value or a reference, so two properties can share one object.
  - Logger calls and the completion callback are recorded as a sequence of `Emit` events in a `Run`, together with the error the handler threw, if any.
  - `JSON.stringify` and the captured stack trace are a `Runtime` parameter.
- `Stages` is the stage chain both wrappers fold.
  - A stage is a tagged total function over a state `S`.
  - `S` stands for what the stages read and change in the event and the context.
- `OptionMerge` is the option merge, in two forms:
  - a function on heap snapshots;
  - a loop on the live objects, proved to agree with that function.
- `Response`, `ErrorResponse`, `DefaultResponse` and `DefaultErrorResponse` are the four response handlers. Each has two parts:
  - a function that says what the handler emits or throws;
  - a method that runs it on the live event, proved equal to that function, with the in-place header writes stated.
- `LambdaWrap` and `LegacyLambdaWrap` are the two wrappers.
  - Each wrapper is a class whose stage lists and handler fields the builder methods update.
  - Each invocation is a method `Invoker.Call`. It is proved to fold exactly the stage lists the wrapper holds when it is called, and to route the outcome as the source does.
- `Errors`, `LogFilters` and `WrapFunction` are the three remaining library files.

## Model

| member | source | states |
|---|---|---|
| Js.ErrorObject | lib/error.js:3-7 | the error object carries the given message, the `status` tag and the runtime's stack |
| Errors.Error | lib/error.js:3-7 | `error(message, code)` has that message, `status == code` and the captured stack |
| Errors.Make | lib/error.js:9-16 | every factory sets its own status; with no message argument the message is the factory's default, otherwise the one given |
| Errors.FactoryStatusClasses | lib/error.js:9-16 | the client-error factories give a 4xx status and the server-error ones a 5xx status (both directions); no two factories share a status |
| Errors.ExplicitMessageKeepsStatus | lib/error.js:9-16 | passing a message changes only `message`; the status and the stack are those of the default call |
| Stages.Apply | lib/lambdaWrap.js:48-58 | a middleware or handler stage runs only on success and passes a failure through; a catch stage runs only on failure, with the error and the state, and passes a success through |
| Stages.RunChain | lib/lambdaWrap.js:47-59 | the loop over the chain equals `Stages.Fold`, the left fold of the stages (`Stages.Apply` each in turn) over the chain `Stages.Chain` builds |
| Stages.FoldAppend | lib/lambdaWrap.js:47-59 | folding a concatenated chain folds the first part, then the second from where the first ended |
| Stages.ChainOrder | lib/lambdaWrap.js:47 | execution order is all middleware in registration order, then the handler, then the catch stages in registration order |
| Stages.ThenStagesSkipFailure | lib/lambdaWrap.js:50-53 | after a rejection no middleware and no handler runs: a failed step passes them unchanged |
| Stages.CatchStagesSkipSuccess | lib/lambdaWrap.js:54-55 | catch stages do not run on success |
| Stages.MiddlewareFailureGoesToCatches | lib/lambdaWrap.js:47-59 | a failure at middleware `k` skips the later middleware and the handler; the catch stages receive exactly the error and the state middleware `k` left |
| Stages.RecoveryEndsCatching | lib/lambdaWrap.js:54-55 | a catch stage that recovers settles the chain to its own value, and later catch stages do not run |
| Stages.LastThrownErrorSurfaces | lib/lambdaWrap.js:54-55 | when every catch stage rethrows, the chain rejects with the error the last one threw |
| Stages.HandlerValueIsResult | lib/lambdaWrap.js:47-62 | with succeeding middleware, the chain settles to the handler's own result; middleware return values are discarded |
| Stages.MiddlewareKeepsSucceeding | lib/lambdaWrap.js:50-51 | middleware that always succeed keep a successful chain successful |
| Stages.LaterMiddlewareSeesEarlierChanges | lib/lambdaWrap.js:50-51 | a stage sees the event and context state the stage before it left |
| OptionMerge.MergeOne | lib/lambdaWrap.js:40-44 | one iteration keeps the set of objects involved; its cases are stated by the `AbsentKeyTakesOptionByReference`, `PresentObjectReceivesOptionProps`, `StringOptionCopiesCharacters` and `TruthyPrimitiveKept` rows |
| OptionMerge.MergeAll | lib/lambdaWrap.js:39-45 | the whole merge keeps the set of objects involved |
| OptionMerge.UnreachedKeysKept | lib/lambdaWrap.js:39-45 | keys the loop has not reached yet still hold the event's original value |
| OptionMerge.AbsentKeyTakesOptionByReference | lib/lambdaWrap.js:42-43 | a falsy `event[key]` becomes the option value itself, not a copy; no other object changes |
| OptionMerge.PresentObjectReceivesOptionProps | lib/lambdaWrap.js:40-41 | a truthy object under the key gets every own property of the option (an object's properties, a string's characters) and keeps the properties the option lacks; no other object changes |
| OptionMerge.StringOptionCopiesCharacters | lib/lambdaWrap.js:41 | a string option assigned onto an object puts each character under its index key and leaves the object's other keys alone |
| OptionMerge.TruthyPrimitiveKept | lib/lambdaWrap.js:40-41 | a truthy primitive under the key stays as it is: `Object.assign` writes only into a discarded box |
| OptionMerge.EventSlotsAfterMerge | lib/lambdaWrap.js:39-45 | after the merge each option key holds the old truthy value, or else the option value |
| OptionMerge.MergedSlotOrigin | lib/lambdaWrap.js:39-45 | under any key the merged event holds its old value or one of the option values, nothing else |
| OptionMerge.MergedSlotRefs | lib/lambdaWrap.js:39-45 | the objects the merged event refers to are its old referents or option objects; the merge cannot make the event refer to itself |
| OptionMerge.NextStep | lib/lambdaWrap.js:39-45 | before iteration `i`, key `i` still holds its original value, and iteration `i` is one more merge step |
| OptionMerge.MergeStep | lib/lambdaWrap.js:40-44 | one iteration on the live objects leaves them equal to the snapshot merge step |
| OptionMerge.MergeOptions | lib/lambdaWrap.js:39-45 | the loop leaves the live objects equal to the merge of the objects as they were before it |
| Response.Negotiate | lib/response.js:12-18 | success exactly for a string (text) or an object with truthy `statusCode` (JSON); otherwise a 400 "Auto negotiation of content type failed", or a TypeError for `null` |
| Response.WithContentType | lib/response.js:12-16 | the headers gain the negotiated `Content-Type`, every other header is kept, and nothing changes when negotiation fails |
| Response.ResponseRun | lib/response.js:9-29 | the handler throws exactly when negotiation fails, with that error and before emitting anything |
| Response.SuccessfulResponse | lib/response.js:20-28 | a successful call logs `res` once, then calls back exactly once with `(null, res)`; the status is the data's truthy `statusCode` or 200 for a string, the body is the serialised data, the headers are the object used |
| Response.Respond | lib/response.js:9-29 | on the live event, uses `event.headers` when truthy or a fresh `{}`, writes the content type into that object in place, and emits what `ResponseRun` says |
| ErrorResponse.ErrorStatus | lib/errorResponse.js:6 | the status code is always truthy: the error's truthy `status`, else 500 |
| ErrorResponse.ErrorRun | lib/errorResponse.js:3-22 | the handler throws exactly when the error is null or undefined |
| ErrorResponse.ErrorResponseDelivers | lib/errorResponse.js:5-21 | any other error, however malformed: one `logger.error` call with the body without the stack (`LoggedBody`), then exactly one callback `(null, res)`, with status `status \|\| 500`, the event's headers, and the sent body serialised |
| ErrorResponse.StackOnlyWhenOffline | lib/errorResponse.js:7-13 | the sent body carries the stack exactly when `event.isOffline` is truthy; the logged body never does; both carry the message and `code` equal to the status |
| ErrorResponse.RespondToError | lib/errorResponse.js:3-22 | on the live event, emits what `ErrorRun` says for `event.headers` and `event.isOffline` |
| DefaultResponse.OptionsHeaders | lib/default-response.js:11 | reading `event.options.headers` throws exactly when `event.options` is null or undefined; for an options object it is that object's `headers`, for any other primitive `undefined` |
| DefaultResponse.DeliversWithLogger | lib/default-response.js:10-29 | `DefaultResponse.LegacyResponseRun`, given a logger: the console line, one log call, then exactly one callback with the negotiated status, the serialised data and the options' own headers object |
| DefaultResponse.NeverDeliversWithoutLogger | lib/default-response.js:27-29 | `DefaultResponse.LegacyResponseRun` without a logger always throws, and the callback never fires |
| DefaultResponse.LegacyRespond | lib/default-response.js:10-30 | on the live event, writes the content type into `event.options.headers` in place, also when the logger call then throws, and emits what `DefaultResponse.LegacyResponseRun` says |
| DefaultErrorResponse.Messages | lib/default-error-response.js:10 | mapping `er.message` succeeds exactly when no element is null or undefined, and gives each element's message in order |
| DefaultErrorResponse.Aggregate | lib/default-error-response.js:7-12 | a value that is not an array is kept as it is |
| DefaultErrorResponse.ArrayOfErrorsAggregates | lib/default-error-response.js:7-12 | an array of errors becomes one error whose messages are the elements' messages in order and whose status is `e[0] && e[0].status`: the first element's `status` when it is truthy (undefined for a primitive), the falsy element itself otherwise; the empty array ends as status 500 |
| DefaultErrorResponse.LegacyErrorDelivers | lib/default-error-response.js:14-29 | `DefaultErrorResponse.LegacyErrorRun` makes exactly one callback `(null, res)`, with status `e.status \|\| 500`, `event.options.headers`, and a body carrying `error`, `code` and always `stack` |
| DefaultErrorResponse.LegacyRespondToError | lib/default-error-response.js:3-31 | on the live event, emits what `DefaultErrorResponse.LegacyErrorRun` says for `event.options` |
| LambdaWrap.RoutingTargets | lib/lambdaWrap.js:61-63 | `LambdaWrap.Route` on a rejected chain does not depend on the success handler or its headers; with the default success handler, a successful chain reaches the error handler exactly when negotiation fails, with the negotiation's error and nothing emitted before |
| LambdaWrap.DefaultsDeliverExactlyOnce | lib/lambdaWrap.js:61-63 | `LambdaWrap.Route` with the default handlers: the callback fires exactly once per call, unless the chain rejects with null or undefined; in that case the error handler throws and nothing is delivered (both directions) |
| LambdaWrap.SuccessDelivered | lib/lambdaWrap.js:62 | a result that negotiates is delivered once as a success, with the data's status (200 for a string) and the data serialised |
| LambdaWrap.NegotiationFailureAnswered | lib/lambdaWrap.js:62-63 | a result that fails negotiation is answered by the error handler with status 400, or 500 for `null` |
| LambdaWrap.OptionsHeadersShared | lib/lambdaWrap.js:39-45 | an event without truthy headers receives the options' own headers object, and the default response then writes its content type into that shared object |
| LambdaWrap.Wrapper.constructor | lib/lambdaWrap.js:71-76 | a new wrapper has empty stage lists and the default response and error handlers |
| LambdaWrap.Wrapper.Before | lib/lambdaWrap.js:79-84 | appends one middleware stage at the end of its list; the catch list is unchanged |
| LambdaWrap.Wrapper.Catch | lib/lambdaWrap.js:86-91 | appends one catch stage at the end of its list; the middleware list is unchanged |
| LambdaWrap.Wrapper.SetResponseHandler | lib/lambdaWrap.js:75 | the public field is replaced |
| LambdaWrap.Wrapper.SetErrorResponseHandler | lib/lambdaWrap.js:76 | the public field is replaced |
| LambdaWrap.Wrapper.Wrap | lib/lambdaWrap.js:20-27 | returns a new invoker bound to this wrapper and the handler |
| LambdaWrap.Prepare | lib/lambdaWrap.js:37-45 | the context gets `callbackWaitsForEmptyEventLoop = false` and the objects equal the merge of their prior state; the headers the event ends with come from the event or the options |
| LambdaWrap.RespondToFailure | lib/lambdaWrap.js:63 | on the live event, emits what the error handler's run says |
| LambdaWrap.Dispatch | lib/lambdaWrap.js:61-63 | emits what `LambdaWrap.Route` says; the headers used are `event.headers` when truthy, otherwise a fresh object; only the headers object the response used changes, and only by gaining the content type |
| LambdaWrap.Invoker.Call | lib/lambdaWrap.js:27-64 | one invocation: the context flag is set; the chain folded (`Stages.Fold` of `Stages.Chain`) is the wrapper's lists as they are at call time around the handler; the response is routed (`LambdaWrap.Route`) on the event as `OptionMerge.MergeAll` leaves it; the headers used are the merged `event.headers` when truthy, otherwise a fresh object holding only the content type; every merged object ends as merged, and the event's own headers object, also when the merge does not reach it, ends as it was, plus the content type when it is the one used |
| LegacyLambdaWrap.CatchKeepsState | lib/lambda-wrap.js:32 | a catch stage built by `ErrorOnlyCatch`, seeing only the error, recovers or rethrows without changing the state later stages see |
| LegacyLambdaWrap.SuccessBecomesServerError | lib/lambda-wrap.js:37 | `LegacyLambdaWrap.Route` as written, with the default handlers: a result that negotiates is never delivered as a success; the one callback is a 500 error response, and no log call happens |
| LegacyLambdaWrap.SuccessDeliveredWithLogger | lib/lambda-wrap.js:37 | with a logger passed, the same result is delivered once with its own status, body and headers |
| LegacyLambdaWrap.Wrapper.constructor | lib/lambda-wrap.js:44-47 | a new wrapper has empty stage lists and the default handlers |
| LegacyLambdaWrap.Wrapper.Before | lib/lambda-wrap.js:49-54 | appends one middleware stage; the catch list is unchanged |
| LegacyLambdaWrap.Wrapper.Catch | lib/lambda-wrap.js:56-61 | appends one error-only catch stage; the middleware list is unchanged |
| LegacyLambdaWrap.Wrapper.SetResponseHandler | lib/lambda-wrap.js:46 | the public field is replaced |
| LegacyLambdaWrap.Wrapper.SetErrorResponseHandler | lib/lambda-wrap.js:47 | the public field is replaced |
| LegacyLambdaWrap.Wrapper.Wrap | lib/lambda-wrap.js:16-19 | returns a new invoker bound to this wrapper and the handler |
| LegacyLambdaWrap.RespondToFailure | lib/lambda-wrap.js:38 | on the live event, emits what the legacy error handler's run says |
| LegacyLambdaWrap.Dispatch | lib/lambda-wrap.js:36-38 | emits what `LegacyLambdaWrap.Route` says with no logger passed; only `event.options.headers` changes, by gaining the content type |
| LegacyLambdaWrap.Invoker.Call | lib/lambda-wrap.js:19-39 | one invocation: the context flag is set, `event.options` is the options object itself and nothing else in the event changes, the call-time chain is folded, and routing happens without a logger |
| LogFilters.LevelFromStatusCode | lib/logFilters.js:6-14 | on the status as `LogFilters.ToNumber` converts it: `info` exactly below 400, `log` exactly in 400-499, `error` exactly from 500 up or for a status that is not a number |
| LogFilters.CreateLogMeta | lib/logFilters.js:16-30 | succeeds exactly when neither event nor response is null or undefined |
| LogFilters.LogMetaContents | lib/logFilters.js:16-52 | the level follows the status bands; `undefined` alone takes a destructuring default; request and response fields are copied as they are; without a truthy error, `error` and `stack` are null, otherwise its message and stack, each null when missing |
| LogFilters.BaseRecord | lib/logFilters.js:70-88 | the record holds exactly the safe fields, plus body, headers and request body when `verboseLog` is truthy, each with the value it had in `logMeta` |
| LogFilters.Fields | lib/logFilters.js:55-68 | destructuring yields exactly the named fields |
| LogFilters.FilterLogData | lib/logFilters.js:54-106 | the method computes `LogFilters.Filter`, including its error cases (null record, missing options, null `logFields`, a throwing entry) |
| LogFilters.ApplyEntries | lib/logFilters.js:90-103 | the loop over `logFields` equals `LogFilters.ApplyRules`: every entry in order, ending at the first exception |
| LogFilters.ThrownErrorSurfaces | lib/logFilters.js:96-97 | applying the entries fails exactly when a function entry that is reached throws, and then with that function's exception |
| LogFilters.RuleFor | lib/logFilters.js:91-93 | there is no entry for a key exactly when no key of `logFields` is that key |
| LogFilters.FieldOutcome | lib/logFilters.js:90-103 | when no entry throws, each field's fate depends only on its own entry: kept without one or with an inert one, removed for `false`, replaced by the function's result and kept exactly when that is truthy |
| LogFilters.VerboseFieldsOnlyWhenVerbose | lib/logFilters.js:82-88 | when the filter returns, body, headers and request body appear exactly when `verboseLog` is truthy, with their original values, unless a `logFields` entry names them |
| LogFilters.FilterFailure | lib/logFilters.js:90-103 | for a record and an options object, the filter throws exactly when `logFields` is `null` or one of its functions throws when reached, and then with that function's exception |
| WrapFunction.Adapt | lib/wrapFunction.js:10-21 | fails with "Handler should be a function" exactly for a non-function; an async function is returned as it is; any other function is lifted |
| WrapFunction.AdaptedAgreesWithFunction | lib/wrapFunction.js:15-19 | calling the adapted handler (`WrapFunction.Invoke`) does what calling the function (`WrapFunction.Call`) does, except that a returned value comes back as a resolved promise |
| WrapFunction.AdaptedReturnsPromise | lib/wrapFunction.js:15-19 | a call to the adapted handler always yields a promise (`WrapFunction.Resolve` of what the function returns), unless a plain function throws synchronously; then that exception escapes the call |
| WrapFunction.GeneratorNotDriven | lib/wrapFunction.js:18-19 | a generator function's call resolves to the generator object, and its body never runs |

## Left out

- The stages themselves are wrapped with `co.wrap` (lib/lambdaWrap.js:24, 82, 89). Generator stages are therefore not driven: a stage is a total function that returns its new state and outcome.
- Promise scheduling and `process.nextTick` are not modelled. The order of events is kept; interleaving across invocations is not.
- `wrap.logger` (lib/lambdaWrap.js:77) is not a field: the logger is the `Logged`/`ErrorLogged` events, and assigning a custom logger is not modelled.
- LambdaWrap.Dispatch, LambdaWrap.Invoker.Call, LegacyLambdaWrap.Dispatch, LegacyLambdaWrap.Invoker.Call: a user-assigned response or error handler (`CustomResponse`, `CustomErrorResponse`) is modelled as a function of the data and the event's properties that returns what it emits. It changes no object and does not see the context, the callback or the logger. In the source (lib/lambdaWrap.js:62-63, lib/lambda-wrap.js:37-38) it receives the live event and context and may change them. The claim that only the headers object changes therefore holds for the default handlers, and for custom ones only under this abstraction.
- `JSON.stringify` and the captured stack trace are uninterpreted parameters. Property order of objects is not modelled.
- Numbers are integers; floating point is left out.
- `LogFilters.ToNumber` treats every object and array as NaN; `valueOf`/`toString` conversions are not modelled. String-to-number conversion is a parameter.
- Thenables returned by a plain function are not adopted in `WrapFunction.Resolve`: a returned value resolves as it is.
- A stage reads and changes the event and the context only through the state `S` it threads. The option merge and the response handlers act on the heap objects. As a consequence, a middleware that changes `event.headers`, `event.isOffline` or `event.options` affects the response in the source, but not in the model: routing reads the event as the option merge left it.
- An object or array held directly by the event, the options or a headers object is always a heap object (`Slot` holds only primitives by value). Objects nested deeper, and the values handlers return, are plain values, so sharing below the top level is not modelled. In particular lib/errorResponse.js:9-12 passes `logger.error` the same `body` object that then gains `stack` when offline; the model logs a value without the stack (`ErrorResponse.LoggedBody`), which is what it holds at the moment of the call.
- MergeOne: `Object.assign` onto a truthy string property of the event throws a TypeError when the option has an own key that is an index inside that string, or an own `length` key, since those properties of a String object are read-only; the model leaves the property unchanged in these cases and does not throw.
- Errors.MessageOr: a factory's message is a string or absent; `new Error(x)` converting a non-string `x` to a string is not modelled.
- The `default` branch of the stage switch (lib/lambdaWrap.js:56-57) is unreachable: a stage's tag is its datatype constructor.
- LambdaWrap.Invoker.Call: requires that the event, the context and the option objects are distinct, that the event does not hold itself under an option key or as its headers, and that no option value is the event. The runtime always passes fresh, distinct event and context objects.
- LegacyLambdaWrap.Invoker.Call: requires the event, the context, the options and its headers object to be distinct, for the same reason.
- LambdaWrap.Wrapper.constructor: requires the options' keys to be distinct, as `Object.keys` yields them.
- LogFilters.CreateLogMeta returns a record datatype; `filterLogData` is modelled on any value, since it only reads the named fields.
- index.js, index.d.ts and the tests are not part of this model.

## Findings

| source | as written | input that shows it | evidently intended | confidence | as-written member | corrected member |
|---|---|---|---|---|---|---|
| lib/lambda-wrap.js:37 | the response handler is called without a logger, so lib/default-response.js:27 `logger.log(res)` throws a TypeError after the content type is written | the default handlers, options `{headers: {}}`, and a handler that returns `"ok"` | the result is delivered as a success, status 200, as lib/lambdaWrap.js:62 does by passing its logger | not executed | LegacyLambdaWrap.SuccessBecomesServerError | LegacyLambdaWrap.SuccessDeliveredWithLogger |
