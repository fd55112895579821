/**
  The few JavaScript value semantics the widget relies on: the values that
  reach `localStorage.setItem`, their truthiness, their conversion to a
  string, the binary `+` operator and strict (in)equality against a stored
  item.
 */
module Js {

  datatype Option<+T> = None | Some(value: T)

  /** A JavaScript value as the widget observes it. Numbers only arise as the
      result of `+` between two non-strings; see Plus. */
  datatype Value = Undefined | Null | Bool(b: bool) | Str(s: string)

  /** A nullable string (`localStorage.getItem`, `URLSearchParams.get`) as a value. */
  function OfNullable(item: Option<string>): Value
  {
    match item
    case None => Null
    case Some(s) => Str(s)
  }

  /** JavaScript truthiness, restricted to the values above. */
  predicate Truthy(v: Value)
  {
    match v
    case Undefined => false
    case Null => false
    case Bool(b) => b
    case Str(s) => s != ""
  }

  /** `String(v)`: what `setItem` stores and what `+` concatenates. */
  function ToStr(v: Value): string
  {
    match v
    case Undefined => "undefined"
    case Null => "null"
    case Bool(b) => if b then "true" else "false"
    case Str(s) => s
  }

  /** `a + b`. When either operand is a string both are converted and
      concatenated; otherwise JavaScript adds them as numbers (`null + null`
      is `0`), which is represented by None: no number is ever strictly equal
      to a stored string or to `null`. */
  function Plus(a: Value, b: Value): (r: Option<string>)
    ensures r.Some? <==> a.Str? || b.Str?
    ensures r.Some? ==> r.value == ToStr(a) + ToStr(b)
  {
    if a.Str? || b.Str? then Some(ToStr(a) + ToStr(b)) else None
  }

  /** `item === computed` where `item` comes from `getItem` (a string or
      `null`) and `computed` from `+` (a string or a number). */
  predicate StrictEquals(item: Option<string>, computed: Option<string>)
  {
    item.Some? && computed.Some? && item.value == computed.value
  }

  /** Left cancellation of string concatenation. */
  lemma {:induction false} ConcatCancelLeft(a: string, b1: string, b2: string)
    requires a + b1 == a + b2
    ensures b1 == b2
  {
    assert b1 == (a + b1)[|a|..];
    assert b2 == (a + b2)[|a|..];
  }

  /** Right cancellation of string concatenation. */
  lemma {:induction false} ConcatCancelRight(a1: string, a2: string, b: string)
    requires a1 + b == a2 + b
    ensures a1 == a2
  {
    assert |a1| == |a2|;
    assert a1 == (a1 + b)[..|a1|];
    assert a2 == (a2 + b)[..|a2|];
  }
}
