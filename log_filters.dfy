/** The log record builder and filter (lib/logFilters.js): `createLogMeta`
    gathers the request, the response and the error into one flat record
    with a level derived from the status code; `filterLogData` keeps the
    safe fields, adds the bodies and response headers only when verbose, and
    then drops or transforms the fields `logFields` names. */
module LogFilters {
  import opened Js

  /** Messages of the TypeErrors the runtime throws. */
  const EventDestructure: string := "Cannot destructure property 'path' of 'event'"
  const ResponseDestructure: string := "Cannot destructure property 'statusCode' of 'response'"
  const LogMetaDestructure: string := "Cannot destructure 'logMeta'"
  const NoOptions: string := "Cannot read properties of undefined (reading 'verboseLog')"
  const NullLogFields: string := "Cannot convert undefined or null to object"

  /** A record: field name to value.  Key order is not modelled. */
  type Record = map<string, JsValue>

  /** The result of JavaScript's numeric conversion: an integer or NaN. */
  datatype Numeric = Finite(n: int) | NaN

  /** `Number(v)` as the relational operators apply it.  `numberOf` is the
      runtime's conversion of a string. */
  function ToNumber(v: JsValue, numberOf: string -> Numeric): Numeric
  {
    match v
    case Num(n) => Finite(n)
    case Null => Finite(0)
    case Bool(b) => Finite(if b then 1 else 0)
    case Str(s) => numberOf(s)
    case _ => NaN
  }

  /** `levelFromStatusCode`: every comparison with NaN is false, so a
      missing or non-numeric status logs as an error. */
  function LevelFromStatusCode(statusCode: Numeric): (level: string)
    ensures level == "info" <==> statusCode.Finite? && statusCode.n < 400
    ensures level == "log" <==> statusCode.Finite? && 400 <= statusCode.n < 500
    ensures level == "error" <==> statusCode.NaN? || statusCode.n >= 500
  {
    if statusCode.Finite? && statusCode.n < 400 then "info"
    else if statusCode.Finite? && statusCode.n < 500 then "log"
    else "error"
  }

  /** A destructuring default: applies only to `undefined`. */
  function Default(v: JsValue, d: JsValue): (r: JsValue)
    ensures v.Undefined? ==> r == d
    ensures !v.Undefined? ==> r == v
  {
    if v.Undefined? then d else v
  }

  /** The fields `filterLogData` always keeps. */
  const SafeKeys: set<string> := {"error", "level", "statusCode", "requestHeaders", "path", "httpMethod",
                                  "queryStringParameters", "pathParameters", "stack"}

  /** The fields only a verbose log keeps. */
  const VerboseKeys: set<string> := {"requestBody", "headers", "body"}

  /** The record `createLogMeta` builds, one field per key. */
  datatype LogMeta = LogMeta(
    error: JsValue,
    level: string,
    statusCode: JsValue,
    path: JsValue,
    httpMethod: JsValue,
    queryStringParameters: JsValue,
    pathParameters: JsValue,
    stack: JsValue,
    requestHeaders: JsValue,
    headers: JsValue,
    requestBody: JsValue,
    body: JsValue)

  /** `createLogMeta(event, response, err = {})`.  Destructuring a null or
      undefined event or response throws.  The error fields come from
      `err || {}`, each defaulting to null. */
  function CreateLogMeta(event: JsValue, response: JsValue, err: JsValue, numberOf: string -> Numeric, rt: Runtime)
    : (r: Result<LogMeta>)
    ensures r.Success? <==> !(event.Null? || event.Undefined?) && !(response.Null? || response.Undefined?)
  {
    if event.Null? || event.Undefined? then Failure(TypeError(EventDestructure, rt))
    else if response.Null? || response.Undefined? then Failure(TypeError(ResponseDestructure, rt))
    else
      var e := if err.Undefined? then Obj(map[]) else err;
      var source := if Truthy(e) then e else Obj(map[]);
      var statusCode := Get(response, "statusCode");
      Success(LogMeta(
        error := Default(Get(source, "message"), Null),
        level := LevelFromStatusCode(ToNumber(statusCode, numberOf)),
        statusCode := statusCode,
        path := Get(event, "path"),
        httpMethod := Get(event, "httpMethod"),
        queryStringParameters := Get(event, "queryStringParameters"),
        pathParameters := Get(event, "pathParameters"),
        stack := Default(Get(source, "stack"), Null),
        requestHeaders := Get(event, "headers"),
        headers := Get(response, "headers"),
        requestBody := Get(event, "body"),
        body := Get(response, "body")))
  }

  /** The level follows the response's status code in bands; the request
      and response fields are copied as they are; without an error
      (omitted, null or any falsy value) `error` and `stack` are null, and
      with one they are its `message` and `stack`, each null when missing. */
  lemma LogMetaContents(event: JsValue, response: JsValue, err: JsValue, numberOf: string -> Numeric, rt: Runtime)
    requires !(event.Null? || event.Undefined?) && !(response.Null? || response.Undefined?)
    ensures var m := CreateLogMeta(event, response, err, numberOf, rt).value;
      var code := ToNumber(Get(response, "statusCode"), numberOf);
      && (m.level == "info" <==> code.Finite? && code.n < 400)
      && (m.level == "log" <==> code.Finite? && 400 <= code.n < 500)
      && (m.level == "error" <==> code.NaN? || code.n >= 500)
      && m.statusCode == Get(response, "statusCode") && m.headers == Get(response, "headers")
      && m.body == Get(response, "body")
      && m.path == Get(event, "path") && m.httpMethod == Get(event, "httpMethod")
      && m.queryStringParameters == Get(event, "queryStringParameters")
      && m.pathParameters == Get(event, "pathParameters")
      && m.requestHeaders == Get(event, "headers") && m.requestBody == Get(event, "body")
      && (!Truthy(err) ==> m.error == Null && m.stack == Null)
      && (Truthy(err) ==> m.error == Default(Get(err, "message"), Null) && m.stack == Default(Get(err, "stack"), Null))
  {
  }

  /** What a `logFields` entry does: `false` deletes, a function transforms
      (and may throw), anything else is ignored. */
  datatype FieldRule = Drop | Transform(f: JsValue -> Result<JsValue>) | Inert

  /** `options.logFields`: not an object, `null` (`typeof null` is
      `'object'`, and `Object.keys(null)` throws), or an object's own
      entries in order. */
  datatype LogFields = NotAnObject | NullFields | Fields(rules: seq<(string, FieldRule)>)

  datatype FilterOptions = FilterOptions(verboseLog: JsValue, logFields: LogFields)

  /** The record before `logFields` apply. */
  function BaseRecord(logMeta: JsValue, verboseLog: JsValue): (r: Record)
    ensures r.Keys == if Truthy(verboseLog) then SafeKeys + VerboseKeys else SafeKeys
    ensures forall k :: k in r ==> r[k] == Get(logMeta, k)
  {
    if Truthy(verboseLog) then Fields(logMeta, SafeKeys) + Fields(logMeta, VerboseKeys) else Fields(logMeta, SafeKeys)
  }

  /** The named fields of a record, read by destructuring. */
  function Fields(logMeta: JsValue, keys: set<string>): (r: Record)
    ensures r.Keys == keys
  {
    map k | k in keys :: Get(logMeta, k)
  }

  /** `logData[key]`: a missing field reads as `undefined`. */
  function Lookup(r: Record, k: string): JsValue
  {
    if k in r then r[k] else Undefined
  }

  /** One iteration of the `forEach`; an exception of the entry's function
      ends the whole call. */
  function ApplyRule(r: Record, key: string, rule: FieldRule): Result<Record>
  {
    match rule
    case Drop => Success(r - {key})
    case Transform(f) =>
      var v := f(Lookup(r, key));
      if v.Failure? then Failure(v.error)
      else if Truthy(v.value) then Success(r[key := v.value]) else Success(r - {key})
    case Inert => Success(r)
  }

  /** The `forEach` over the entries in order. */
  function ApplyRules(r: Record, rules: seq<(string, FieldRule)>): Result<Record>
    decreases |rules|
  {
    if rules == [] then Success(r)
    else
      var next := ApplyRule(r, rules[0].0, rules[0].1);
      if next.Failure? then next else ApplyRules(next.value, rules[1..])
  }

  /** `filterLogData(logMeta, options)`.  Destructuring a null or undefined
      `logMeta` or reading `verboseLog` of null or undefined options throws. */
  function Filter(logMeta: JsValue, options: Option<FilterOptions>, rt: Runtime): Result<Record>
  {
    if logMeta.Null? || logMeta.Undefined? then Failure(TypeError(LogMetaDestructure, rt))
    else if options.None? then Failure(TypeError(NoOptions, rt))
    else
      var base := BaseRecord(logMeta, options.value.verboseLog);
      match options.value.logFields
      case NotAnObject => Success(base)
      case NullFields => Failure(TypeError(NullLogFields, rt))
      case Fields(rules) => ApplyRules(base, rules)
  }

  /** `filterLogData(logMeta, options)` on a copy of the record. */
  method FilterLogData(logMeta: JsValue, options: Option<FilterOptions>, rt: Runtime) returns (r: Result<Record>)
    ensures r == Filter(logMeta, options, rt)
  {
    if logMeta.Null? || logMeta.Undefined? {
      return Failure(TypeError(LogMetaDestructure, rt));
    }
    if options.None? {
      return Failure(TypeError(NoOptions, rt));
    }
    var logData := Fields(logMeta, SafeKeys);
    if Truthy(options.value.verboseLog) {
      logData := logData + Fields(logMeta, VerboseKeys);
    }
    match options.value.logFields {
      case NotAnObject =>
        return Success(logData);
      case NullFields =>
        return Failure(TypeError(NullLogFields, rt));
      case Fields(rules) =>
        r := ApplyEntries(logData, rules);
    }
  }

  /** The `forEach` over `logFields`: `delete` for `false`, assignment and
      then `delete` of a falsy result for a function, whose exception ends
      the loop. */
  method ApplyEntries(record: Record, rules: seq<(string, FieldRule)>) returns (r: Result<Record>)
    ensures r == ApplyRules(record, rules)
  {
    var logData := record;
    var i := 0;
    while i < |rules|
      invariant 0 <= i <= |rules|
      invariant ApplyRules(logData, rules[i..]) == ApplyRules(record, rules)
    {
      assert rules[i..][1..] == rules[i + 1..];
      var (key, rule) := rules[i];
      match rule {
        case Drop =>
          logData := logData - {key};
        case Transform(f) =>
          var v := f(Lookup(logData, key));
          if v.Failure? {
            return Failure(v.error);
          }
          if Truthy(v.value) {
            logData := logData[key := v.value];
          } else {
            logData := logData - {key};
          }
        case Inert =>
      }
      i := i + 1;
    }
    assert rules[i..] == [];
    r := Success(logData);
  }

  /** Applying a concatenation applies the first part, then the second. */
  lemma {:induction false} ApplyRulesAppend(r: Record, a: seq<(string, FieldRule)>, b: seq<(string, FieldRule)>)
    ensures ApplyRules(r, a + b)
         == if ApplyRules(r, a).Failure? then ApplyRules(r, a) else ApplyRules(ApplyRules(r, a).value, b)
    decreases |a|
  {
    if a == [] {
      assert a + b == b;
    } else {
      assert (a + b)[1..] == a[1..] + b;
      var next := ApplyRule(r, a[0].0, a[0].1);
      if next.Success? {
        ApplyRulesAppend(next.value, a[1..], b);
      }
    }
  }

  /** Entry `i` is a function that is reached (every earlier entry returned)
      and throws on the value the record then holds under its key. */
  predicate ThrowsAt(r: Record, rules: seq<(string, FieldRule)>, i: int)
  {
    && 0 <= i < |rules| && rules[i].1.Transform?
    && ApplyRules(r, rules[..i]).Success?
    && rules[i].1.f(Lookup(ApplyRules(r, rules[..i]).value, rules[i].0)).Failure?
  }

  /** The entries fail exactly when a reached function throws, and then with
      that function's exception. */
  lemma {:induction false} ThrownErrorSurfaces(r: Record, rules: seq<(string, FieldRule)>)
    ensures ApplyRules(r, rules).Failure? <==> exists i :: ThrowsAt(r, rules, i)
    ensures forall i :: ThrowsAt(r, rules, i) ==>
      ApplyRules(r, rules).error == rules[i].1.f(Lookup(ApplyRules(r, rules[..i]).value, rules[i].0)).error
    decreases |rules|
  {
    forall i | ThrowsAt(r, rules, i)
      ensures ApplyRules(r, rules) == Failure(rules[i].1.f(Lookup(ApplyRules(r, rules[..i]).value, rules[i].0)).error)
    {
      var rest := [rules[i]] + rules[i + 1..];
      assert rules == rules[..i] + rest;
      assert rest[0] == rules[i];
      ApplyRulesAppend(r, rules[..i], rest);
    }
    if rules != [] && ApplyRules(r, rules).Failure? {
      var n := |rules| - 1;
      var front := rules[..n];
      assert rules == front + [rules[n]];
      ApplyRulesAppend(r, front, [rules[n]]);
      if ApplyRules(r, front).Failure? {
        ThrownErrorSurfaces(r, front);
        var i :| ThrowsAt(r, front, i);
        assert front[..i] == rules[..i];
        assert ThrowsAt(r, rules, i);
      } else {
        assert [rules[n]][1..] == [];
        assert front == rules[..n];
        assert ThrowsAt(r, rules, n);
      }
    }
  }

  /** `Object.keys` yields each key once. */
  predicate DistinctRuleKeys(rules: seq<(string, FieldRule)>)
  {
    forall i, j :: 0 <= i < j < |rules| ==> rules[i].0 != rules[j].0
  }

  /** The entry `logFields` holds for a key, if any. */
  function RuleFor(rules: seq<(string, FieldRule)>, k: string): (r: Option<FieldRule>)
    ensures r.None? <==> forall i :: 0 <= i < |rules| ==> rules[i].0 != k
    decreases |rules|
  {
    if rules == [] then None
    else if rules[0].0 == k then Some(rules[0].1)
    else RuleFor(rules[1..], k)
  }

  /** When no function throws, each field's fate depends only on its own
      entry: a field without an entry, or with one that is neither `false`
      nor a function, keeps the value built before filtering; `false`
      removes it; a function replaces it with its result, and the field
      stays exactly when that is truthy. */
  lemma {:induction false} FieldOutcome(r: Record, rules: seq<(string, FieldRule)>, k: string)
    requires DistinctRuleKeys(rules)
    ensures var out := ApplyRules(r, rules);
      out.Success? ==>
      match RuleFor(rules, k)
      case None => Lookup(out.value, k) == Lookup(r, k) && (k in out.value <==> k in r)
      case Some(Inert) => Lookup(out.value, k) == Lookup(r, k) && (k in out.value <==> k in r)
      case Some(Drop) => k !in out.value
      case Some(Transform(f)) =>
        && f(Lookup(r, k)).Success?
        && (k in out.value <==> Truthy(f(Lookup(r, k)).value))
        && (k in out.value ==> out.value[k] == f(Lookup(r, k)).value)
    decreases |rules|
  {
    if rules != [] {
      var next := ApplyRule(r, rules[0].0, rules[0].1);
      if next.Success? {
        assert DistinctRuleKeys(rules[1..]) by {
          forall i, j | 0 <= i < j < |rules[1..]| ensures rules[1..][i].0 != rules[1..][j].0 {
            assert rules[1..][i] == rules[i + 1] && rules[1..][j] == rules[j + 1];
          }
        }
        FieldOutcome(next.value, rules[1..], k);
        if rules[0].0 == k {
          forall i | 0 <= i < |rules[1..]| ensures rules[1..][i].0 != k {
            assert rules[1..][i] == rules[i + 1];
          }
        }
      }
    }
  }

  /** Without a truthy `verboseLog` neither request body, response headers
      nor response body reaches the filtered record unless an entry's
      function puts it there; with one they are copied from the record. */
  lemma VerboseFieldsOnlyWhenVerbose(logMeta: JsValue, options: FilterOptions, k: string, rt: Runtime)
    requires !(logMeta.Null? || logMeta.Undefined?)
    requires k in VerboseKeys
    requires options.logFields.NotAnObject? || (options.logFields.Fields? && DistinctRuleKeys(options.logFields.rules)
                                                && RuleFor(options.logFields.rules, k).None?)
    ensures var r := Filter(logMeta, Some(options), rt);
      && (options.logFields.NotAnObject? ==> r.Success?)
      && (r.Success? ==> (k in r.value <==> Truthy(options.verboseLog)))
      && (r.Success? && k in r.value ==> r.value[k] == Get(logMeta, k))
  {
    if options.logFields.Fields? {
      FieldOutcome(BaseRecord(logMeta, options.verboseLog), options.logFields.rules, k);
    }
  }

  /** For a record and an options object, the filter throws exactly when
      `logFields` is `null` or one of its functions throws when reached, and
      then with that function's exception. */
  lemma FilterFailure(logMeta: JsValue, options: FilterOptions, rt: Runtime)
    requires !(logMeta.Null? || logMeta.Undefined?)
    ensures var base := BaseRecord(logMeta, options.verboseLog);
      && (Filter(logMeta, Some(options), rt).Failure? <==>
           options.logFields.NullFields? || (options.logFields.Fields? && exists i :: ThrowsAt(base, options.logFields.rules, i)))
      && (options.logFields.Fields? ==> forall i :: ThrowsAt(base, options.logFields.rules, i) ==>
           Filter(logMeta, Some(options), rt).error
             == options.logFields.rules[i].1.f(Lookup(ApplyRules(base, options.logFields.rules[..i]).value,
                                                      options.logFields.rules[i].0)).error)
  {
    if options.logFields.Fields? {
      ThrownErrorSurfaces(BaseRecord(logMeta, options.verboseLog), options.logFields.rules);
    }
  }
}
