/** The per-call option merge of lib/lambdaWrap.js:39-45: for each option
    key in turn, an existing truthy `event[key]` has the option's own
    properties assigned into it (`Object.assign`); otherwise `event[key]` is
    set to the option value itself, so the event and the options then share
    that object.

    `Heap` is a snapshot of the objects involved: the merge is specified as a
    function on snapshots, and `MergeOptions` is the loop that performs it on
    the live objects. */
module OptionMerge {
  import opened Js

  type Heap = map<JsObject, map<string, Slot>>

  /** The options, as their own keys in order with their values. */
  type Options = seq<(string, Slot)>

  predicate DistinctKeys(options: Options)
  {
    forall i, j :: 0 <= i < j < |options| ==> options[i].0 != options[j].0
  }

  function PropsIn(h: Heap, o: JsObject): map<string, Slot>
  {
    if o in h then h[o] else map[]
  }

  /** The own enumerable properties `Object.assign` copies from a source:
      an object's properties, a string's characters under their indices;
      any other primitive contributes none. */
  function OwnProps(h: Heap, source: Slot): map<string, Slot>
  {
    if source.Ref? then PropsIn(h, source.obj) else PrimitiveProps(source.v)
  }

  /** One iteration of the `forEach`: a truthy object under the key receives
      the option's own properties in place; a truthy primitive is boxed by
      `Object.assign` and the box discarded, so the event keeps it; a falsy
      value is replaced by the option itself. */
  function MergeOne(h: Heap, event: JsObject, key: string, option: Slot): (r: Heap)
    requires event in h
    ensures r.Keys == h.Keys
  {
    var current := PropOf(h[event], key);
    if SlotTruthy(current) then
      if current.Ref? && current.obj in h then h[current.obj := h[current.obj] + OwnProps(h, option)]
      else h
    else
      h[event := h[event][key := option]]
  }

  /** The whole `forEach`, over the keys in order. */
  function MergeAll(h: Heap, event: JsObject, options: Options): (r: Heap)
    requires event in h
    ensures r.Keys == h.Keys
    decreases |options|
  {
    if options == [] then h
    else
      var last := options[|options| - 1];
      MergeOne(MergeAll(h, event, options[..|options| - 1]), event, last.0, last.1)
  }

  /** The objects the merge reads or writes: the event, the objects the event
      holds under the option keys, and the option values. */
  ghost function Footprint(event: JsObject, options: Options): set<JsObject>
    reads event
  {
    {event}
    + (set i | 0 <= i < |options| && PropOf(event.props, options[i].0).Ref? :: PropOf(event.props, options[i].0).obj)
    + OptionObjects(options)
  }

  /** The objects the options hold by reference. */
  function OptionObjects(options: Options): set<JsObject>
  {
    set i | 0 <= i < |options| && options[i].1.Ref? :: options[i].1.obj
  }

  /** The event does not hold itself under an option key (`event[key] === event`). */
  predicate NotSelfTarget(event: JsObject, options: Options)
    reads event
  {
    forall i :: 0 <= i < |options| ==> PropOf(event.props, options[i].0) != Ref(event)
  }

  ghost function Snapshot(objects: set<JsObject>): (h: Heap)
    reads objects
    ensures h.Keys == objects
  {
    map o | o in objects :: o.props
  }

  /** Keys the merge has not reached keep what the event held under them. */
  lemma {:induction false} UnreachedKeysKept(h: Heap, event: JsObject, options: Options, rest: Options)
    requires event in h && DistinctKeys(options + rest)
    requires forall i :: 0 <= i < |options + rest| ==> PropOf(h[event], (options + rest)[i].0) != Ref(event)
    ensures forall j :: 0 <= j < |rest| ==> PropOf(MergeAll(h, event, options)[event], rest[j].0) == PropOf(h[event], rest[j].0)
    decreases |options|
  {
    if options != [] {
      var n := |options| - 1;
      var front := options[..n];
      assert front + ([options[n]] + rest) == options + rest;
      UnreachedKeysKept(h, event, front, [options[n]] + rest);
      var hf := MergeAll(h, event, front);
      forall j | 0 <= j < |rest|
        ensures PropOf(MergeAll(h, event, options)[event], rest[j].0) == PropOf(h[event], rest[j].0)
      {
        assert ([options[n]] + rest)[j + 1] == rest[j];
        assert ([options[n]] + rest)[0] == options[n];
        assert (options + rest)[n] == options[n] && (options + rest)[n + 1 + j] == rest[j];
        assert options[n].0 != rest[j].0;
      }
    }
  }

  /** A key the event lacks (or holds a falsy value under) is set to the
      option value itself: afterwards the event holds the options' own object. */
  lemma AbsentKeyTakesOptionByReference(h: Heap, event: JsObject, key: string, option: Slot)
    requires event in h && !SlotTruthy(PropOf(h[event], key))
    ensures PropOf(MergeOne(h, event, key, option)[event], key) == option
    ensures forall o :: o in h && o != event ==> MergeOne(h, event, key, option)[o] == h[o]
  {
  }

  /** A truthy object under the key receives every own property of the option
      and keeps the properties the option does not own; nothing else changes. */
  lemma PresentObjectReceivesOptionProps(h: Heap, event: JsObject, key: string, option: Slot)
    requires event in h && PropOf(h[event], key).Ref? && PropOf(h[event], key).obj in h
    ensures var t := PropOf(h[event], key).obj;
      var r := MergeOne(h, event, key, option);
      && (forall k :: k in OwnProps(h, option) ==> k in r[t] && r[t][k] == OwnProps(h, option)[k])
      && (forall k :: k in h[t] && k !in OwnProps(h, option) ==> k in r[t] && r[t][k] == h[t][k])
      && (forall o :: o in h && o != t ==> r[o] == h[o])
  {
  }

  /** A string option assigned onto an object copies each character under
      its index, and the object keeps its properties at other keys. */
  lemma StringOptionCopiesCharacters(h: Heap, event: JsObject, key: string, text: string)
    requires event in h && PropOf(h[event], key).Ref? && PropOf(h[event], key).obj in h
    ensures var t := PropOf(h[event], key).obj;
      var r := MergeOne(h, event, key, Val(Str(text)));
      && (forall i :: 0 <= i < |text| ==> IndexKey(i) in r[t] && r[t][IndexKey(i)] == Val(Str([text[i]])))
      && (forall k :: k in h[t] && k !in (set i | 0 <= i < |text| :: IndexKey(i)) ==> k in r[t] && r[t][k] == h[t][k])
  {
    CharPropsValues(text, 0);
    CharPropsKeys(text, 0);
    PresentObjectReceivesOptionProps(h, event, key, Val(Str(text)));
  }

  /** A truthy primitive under the key stays: only its discarded box receives
      the option's properties. */
  lemma TruthyPrimitiveKept(h: Heap, event: JsObject, key: string, option: Slot)
    requires event in h && PropOf(h[event], key).Val? && Truthy(PropOf(h[event], key).v)
    ensures MergeOne(h, event, key, option) == h
  {
  }

  /** After the whole merge the event holds, under each option key, what it
      held before if that was truthy, and otherwise the option value itself. */
  lemma {:induction false} EventSlotsAfterMerge(h: Heap, event: JsObject, options: Options)
    requires event in h && DistinctKeys(options)
    requires forall i :: 0 <= i < |options| ==> PropOf(h[event], options[i].0) != Ref(event)
    ensures forall i :: 0 <= i < |options| ==>
      PropOf(MergeAll(h, event, options)[event], options[i].0)
        == if SlotTruthy(PropOf(h[event], options[i].0)) then PropOf(h[event], options[i].0) else options[i].1
    decreases |options|
  {
    if options != [] {
      var n := |options| - 1;
      var front := options[..n];
      EventSlotsAfterMerge(h, event, front);
      assert front + [options[n]] == options;
      UnreachedKeysKept(h, event, front, [options[n]]);
      var hf := MergeAll(h, event, front);
      assert PropOf(hf[event], options[n].0) == PropOf(h[event], options[n].0);
      forall i | 0 <= i < n
        ensures PropOf(MergeAll(h, event, options)[event], options[i].0) == PropOf(hf[event], options[i].0)
      {
        assert front[i] == options[i];
        assert options[i].0 != options[n].0;
      }
    }
  }

  /** Under any key, after the merge the event holds what it held before or
      one of the option values: the merge brings in no other value. */
  lemma {:induction false} MergedSlotOrigin(h: Heap, event: JsObject, options: Options, k: string)
    requires event in h && DistinctKeys(options)
    requires forall i :: 0 <= i < |options| ==> PropOf(h[event], options[i].0) != Ref(event)
    ensures var s := PropOf(MergeAll(h, event, options)[event], k);
      s == PropOf(h[event], k) || exists i :: 0 <= i < |options| && s == options[i].1
    decreases |options|
  {
    if options != [] {
      var n := |options| - 1;
      var front := options[..n];
      assert front + [options[n]] == options;
      MergedSlotOrigin(h, event, front, k);
      UnreachedKeysKept(h, event, front, [options[n]]);
      var hf := MergeAll(h, event, front);
      assert PropOf(hf[event], options[n].0) == PropOf(h[event], options[n].0);
      var s := PropOf(hf[event], k);
      if s != PropOf(h[event], k) {
        var i :| 0 <= i < |front| && s == front[i].1;
        assert s == options[i].1;
      }
    }
  }

  /** Hence the objects the event refers to under a key after the merge are
      the one it referred to before or option objects; and if neither the
      old slot nor any option value is the event itself, the new slot is not. */
  lemma MergedSlotRefs(h: Heap, event: JsObject, options: Options, k: string)
    requires event in h && DistinctKeys(options)
    requires forall i :: 0 <= i < |options| ==> PropOf(h[event], options[i].0) != Ref(event)
    ensures Refs(PropOf(MergeAll(h, event, options)[event], k)) <= Refs(PropOf(h[event], k)) + OptionObjects(options)
    ensures PropOf(h[event], k) != Ref(event) && (forall i :: 0 <= i < |options| ==> options[i].1 != Ref(event)) ==>
      PropOf(MergeAll(h, event, options)[event], k) != Ref(event)
  {
    MergedSlotOrigin(h, event, options, k);
    var s := PropOf(MergeAll(h, event, options)[event], k);
    if s != PropOf(h[event], k) {
      var i :| 0 <= i < |options| && s == options[i].1;
      assert s.Ref? ==> s.obj in OptionObjects(options);
    }
  }

  /** The live objects agree with the snapshot on every object it holds. */
  ghost predicate Matches(h: Heap)
    reads h.Keys
  {
    forall o :: o in h ==> o.props == h[o]
  }

  /** One iteration on the live objects. */
  method MergeStep(event: JsObject, key: string, option: Slot, ghost h: Heap)
    requires event in h && Matches(h)
    requires Refs(option) <= h.Keys && Refs(PropOf(h[event], key)) <= h.Keys
    modifies h.Keys
    ensures Matches(MergeOne(h, event, key, option))
  {
    var current := PropOf(event.props, key);
    if SlotTruthy(current) {
      if current.Ref? {
        var source := if option.Ref? then option.obj.props else PrimitiveProps(option.v);
        current.obj.props := current.obj.props + source;
      }
    } else {
      event.props := event.props[key := option];
    }
  }

  /** Before iteration `i` the event still holds its original value under
      the `i`-th key, and iteration `i` is one more `MergeOne`. */
  lemma NextStep(h0: Heap, event: JsObject, options: Options, i: nat)
    requires event in h0 && DistinctKeys(options) && i < |options|
    requires forall j :: 0 <= j < |options| ==> PropOf(h0[event], options[j].0) != Ref(event)
    ensures PropOf(MergeAll(h0, event, options[..i])[event], options[i].0) == PropOf(h0[event], options[i].0)
    ensures MergeAll(h0, event, options[..i + 1])
         == MergeOne(MergeAll(h0, event, options[..i]), event, options[i].0, options[i].1)
  {
    assert options[..i + 1][..i] == options[..i];
    assert options[..i] + options[i..] == options;
    UnreachedKeysKept(h0, event, options[..i], options[i..]);
    assert options[i..][0] == options[i];
  }

  /** `Object.keys(options).forEach(...)` on the live objects. */
  method MergeOptions(event: JsObject, options: Options)
    requires DistinctKeys(options) && NotSelfTarget(event, options)
    modifies Footprint(event, options)
    ensures Matches(MergeAll(old(Snapshot(Footprint(event, options))), event, options))
  {
    ghost var h0 := Snapshot(Footprint(event, options));
    var i := 0;
    while i < |options|
      invariant 0 <= i <= |options|
      invariant Matches(MergeAll(h0, event, options[..i]))
    {
      ghost var hi := MergeAll(h0, event, options[..i]);
      NextStep(h0, event, options, i);
      MergeStep(event, options[i].0, options[i].1, hi);
      i := i + 1;
    }
    assert options[..i] == options;
  }
}
