/** A small optional-value datatype shared by the other modules. */
module Options {

  datatype Option<+T> = None | Some(value: T)
}

/**
 The fragment of JavaScript value semantics that the server's error paths
 depend on: which values are falsy, what `a || b` evaluates to, and what a
 property read on an object literal yields.
 */
module Js {

  /** A JavaScript value. Numbers are modelled by their integer values, with
      NaN kept apart because it is the one falsy number other than zero.
      Objects are kept as their own-property list in insertion order. */
  datatype JsValue =
    | Undefined
    | Null
    | Bool(b: bool)
    | Num(n: int)
    | NaN
    | Str(s: string)
    | Arr(elems: seq<JsValue>)
    | Obj(entries: seq<(string, JsValue)>)

  /** ToBoolean, section 7.1.2 of ECMAScript: empty strings, zero, NaN,
      `false`, `null` and `undefined` are falsy; every array and every
      object, even an empty one, is truthy. */
  predicate Truthy(v: JsValue) {
    match v
    case Undefined => false
    case Null => false
    case Bool(b) => b
    case Num(n) => n != 0
    case NaN => false
    case Str(s) => |s| > 0
    case Arr(_) => true
    case Obj(_) => true
  }

  /** The falsy values, listed: an independent statement of `Truthy`. */
  lemma FalsyValues(v: JsValue)
    ensures !Truthy(v) <==> v in {Undefined, Null, Bool(false), Num(0), NaN, Str("")}
  {
  }

  /** `a || b` (section 13.13 of ECMAScript): the left operand when it is
      truthy, otherwise the right one, never a coerced copy of either. */
  function Or(a: JsValue, b: JsValue): (r: JsValue)
    ensures r == a || r == b
    ensures r == a <==> Truthy(a) || a == b
    ensures Truthy(r) <==> Truthy(a) || Truthy(b)
  {
    if Truthy(a) then a else b
  }

  /** The keys of an object's property list, in order. */
  function Keys(entries: seq<(string, JsValue)>): (ks: seq<string>)
    ensures |ks| == |entries|
    ensures forall i :: 0 <= i < |entries| ==> ks[i] == entries[i].0
  {
    if |entries| == 0 then [] else [entries[0].0] + Keys(entries[1..])
  }

  /** Property read `o[key]` on an object with the given property list:
      the value stored under `key`, or `undefined` when no property has
      that name. */
  function Get(entries: seq<(string, JsValue)>, key: string): (v: JsValue)
    ensures key !in Keys(entries) ==> v == Undefined
    ensures key in Keys(entries) ==> (key, v) in entries
  {
    if |entries| == 0 then Undefined
    else if entries[0].0 == key then entries[0].1
    else Get(entries[1..], key)
  }
}
