/** JavaScript values, heap objects and the I/O events the wrapper produces.

    Plain data (what handlers return, error objects, response bodies) is a
    value of `JsValue`.  The objects the wrapper mutates in place (the event,
    the context, the headers map, the options) are `JsObject`s on the heap,
    whose properties hold either a plain value or a reference to another heap
    object, so that two properties can share one object as they do in
    JavaScript. */
module Js {

  datatype Option<T> = None | Some(value: T)

  /** A computation that returns a value or throws a JavaScript error. */
  datatype Result<T> = Success(value: T) | Failure(error: JsValue)

  /** The JavaScript values the wrapper inspects.  Numbers are integers. */
  datatype JsValue =
    | Undefined
    | Null
    | Bool(b: bool)
    | Num(n: int)
    | Str(s: string)
    | Arr(elems: seq<JsValue>)
    | Obj(props: map<string, JsValue>)

  /** JavaScript truthiness: `undefined`, `null`, `false`, `0` and `""` are falsy. */
  predicate Truthy(v: JsValue)
  {
    match v
    case Undefined => false
    case Null => false
    case Bool(b) => b
    case Num(n) => n != 0
    case Str(s) => s != ""
    case _ => true
  }

  /** `v || d` */
  function Or(v: JsValue, d: JsValue): (r: JsValue)
    ensures Truthy(v) ==> r == v
    ensures !Truthy(v) ==> r == d
  {
    if Truthy(v) then v else d
  }

  /** Property read `v.k` on a value that is not null or undefined; a
      property an object does not own reads as `undefined`. */
  function Get(v: JsValue, k: string): JsValue
  {
    if v.Obj? && k in v.props then v.props[k] else Undefined
  }

  /** An `Error` object: own `message` and `stack`, plus the `status` tag this
      library adds.  `stack` is whatever the runtime captured. */
  function ErrorObject(message: string, status: JsValue, stack: string): (r: JsValue)
    ensures Get(r, "message") == Str(message) && Get(r, "status") == status
    ensures Get(r, "stack") == Str(stack)
  {
    Obj(map["message" := Str(message), "status" := status, "stack" := Str(stack)])
  }

  /** The runtime services the model leaves uninterpreted: `JSON.stringify`
      and the stack trace captured when an error object is created. */
  datatype Runtime = Runtime(stringify: JsValue -> string, trace: string)

  /** The `TypeError` the engine throws for a property read on null or
      undefined, or for `Object.assign` onto null or undefined.  It carries no
      `status`.  Its message text is engine-specific; `what` names the failing
      operation. */
  function TypeError(what: string, rt: Runtime): (r: JsValue)
    ensures !Truthy(Get(r, "status"))
  {
    Obj(map["name" := Str("TypeError"), "message" := Str(what), "stack" := Str(rt.trace)])
  }

  /** A mutable JavaScript object. */
  class JsObject {
    var props: map<string, Slot>

    constructor (props: map<string, Slot>)
      ensures this.props == props
    {
      this.props := props;
    }
  }

  /** The values that are not objects: `typeof` is neither `'object'` nor
      `'function'` (`null` included, as the language treats it). */
  type Primitive = v: JsValue | !v.Obj? && !v.Arr? witness Undefined

  /** What a property of a heap object holds: a primitive, or a reference.
      An object or array held directly by the event, the options or a
      headers object is always a heap object, shared by whoever holds it. */
  datatype Slot = Val(v: Primitive) | Ref(obj: JsObject)

  /** The decimal property key of an index: `String(i)`. */
  function IndexKey(i: nat): string
  {
    if i < 10 then [Digit(i)] else IndexKey(i / 10) + [Digit(i % 10)]
  }

  function Digit(d: nat): char
    requires d < 10
  {
    "0123456789"[d]
  }

  /** The own enumerable properties of a primitive, as `Object.assign` reads a
      source: a string has one per character, under its index; every other
      primitive has none. */
  function PrimitiveProps(p: Primitive): map<string, Slot>
  {
    if p.Str? then CharProps(p.s, 0) else map[]
  }

  function CharProps(s: string, from: nat): map<string, Slot>
    decreases |s| - from
  {
    if from >= |s| then map[] else CharProps(s, from + 1)[IndexKey(from) := Val(Str([s[from]]))]
  }

  /** Distinct indices have distinct keys. */
  lemma {:induction false} IndexKeyInjective(i: nat, j: nat)
    ensures IndexKey(i) == IndexKey(j) ==> i == j
    decreases i
  {
    if IndexKey(i) == IndexKey(j) {
      if i < 10 && j < 10 {
        assert Digit(i) == IndexKey(i)[0] == IndexKey(j)[0] == Digit(j);
      } else if i >= 10 && j >= 10 {
        var a, b := IndexKey(i / 10), IndexKey(j / 10);
        assert |a| == |b|;
        assert a == IndexKey(i)[..|a|] && b == IndexKey(j)[..|b|];
        IndexKeyInjective(i / 10, j / 10);
        assert Digit(i % 10) == IndexKey(i)[|a|] == IndexKey(j)[|b|] == Digit(j % 10);
      } else {
        IndexKeyLength(if i < 10 then j else i);
      }
    }
  }

  lemma IndexKeyLength(i: nat)
    requires i >= 10
    ensures |IndexKey(i)| >= 2
  {
    assert |IndexKey(i / 10)| >= 1;
  }

  /** The own properties of a string are exactly its indices. */
  lemma {:induction false} CharPropsKeys(s: string, from: nat)
    ensures CharProps(s, from).Keys == set i | from <= i < |s| :: IndexKey(i)
    decreases |s| - from
  {
    if from < |s| {
      CharPropsKeys(s, from + 1);
      var all := set i | from <= i < |s| :: IndexKey(i);
      var later := set i | from + 1 <= i < |s| :: IndexKey(i);
      assert IndexKey(from) in all;
      forall k | k in later ensures k in all {
        var i :| from + 1 <= i < |s| && k == IndexKey(i);
        assert from <= i < |s|;
      }
      forall k | k in all && k != IndexKey(from) ensures k in later {
        var i :| from <= i < |s| && k == IndexKey(i);
        assert from + 1 <= i < |s|;
      }
      assert all == later + {IndexKey(from)};
    }
  }

  /** Each index holds the one-character string at that index. */
  lemma {:induction false} CharPropsValues(s: string, from: nat)
    ensures forall i :: from <= i < |s| ==> IndexKey(i) in CharProps(s, from)
    ensures forall i :: from <= i < |s| ==> CharProps(s, from)[IndexKey(i)] == Val(Str([s[i]]))
    decreases |s| - from
  {
    if from < |s| {
      CharPropsValues(s, from + 1);
      forall i | from < i < |s| ensures CharProps(s, from)[IndexKey(i)] == Val(Str([s[i]])) {
        IndexKeyInjective(from, i);
      }
    }
  }

  predicate SlotTruthy(s: Slot)
  {
    s.Ref? || Truthy(s.v)
  }

  /** The objects a slot refers to (none or one), for frames. */
  function Refs(s: Slot): set<JsObject>
  {
    if s.Ref? then {s.obj} else {}
  }

  /** `o.k` on a heap object; an absent property reads as `undefined`. */
  function PropOf(props: map<string, Slot>, k: string): Slot
  {
    if k in props then props[k] else Val(Undefined)
  }

  /** The response record `{statusCode, body, headers}`; `headers` is the very
      object (or value) the handler used, not a copy. */
  datatype WireResponse = WireResponse(statusCode: JsValue, body: string, headers: Slot)

  /** What a response handler does that leaves the process: logger calls and
      the completion callback. */
  datatype Emit =
    | ConsoleLogged(data: JsValue)
    | Logged(res: WireResponse)
    | ErrorLogged(body: JsValue)
    | Delivered(err: JsValue, res: WireResponse)

  /** The events a handler emitted, and the error it threw, if any. */
  datatype Run = Run(emitted: seq<Emit>, thrown: Option<JsValue>)

  /** How many times the completion callback was invoked. */
  function Deliveries(es: seq<Emit>): (n: nat)
    ensures n <= |es|
  {
    if es == [] then 0
    else (if es[0].Delivered? then 1 else 0) + Deliveries(es[1..])
  }

  lemma {:induction false} DeliveriesAppend(a: seq<Emit>, b: seq<Emit>)
    ensures Deliveries(a + b) == Deliveries(a) + Deliveries(b)
    decreases |a|
  {
    if a == [] {
      assert a + b == b;
    } else {
      assert (a + b)[1..] == a[1..] + b;
      DeliveriesAppend(a[1..], b);
    }
  }
}
