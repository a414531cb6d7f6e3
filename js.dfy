/**
  The few pieces of JavaScript value semantics that the request handlers of
  app.js depend on: truthiness, logical not, strict equality and `||`.
  Numbers are modelled as integers (the handlers only ever hold whole
  numbers); NaN and object values are not modelled.
 */
module Js {

  datatype Value =
    | Undefined
    | Null
    | Bool(b: bool)
    | Num(n: int)
    | Str(s: string)

  /** The `typeof` of a value (`typeof null` is "object"). */
  function TypeOf(v: Value): string {
    match v
    case Undefined => "undefined"
    case Null => "object"
    case Bool(_) => "boolean"
    case Num(_) => "number"
    case Str(_) => "string"
  }

  /** ToBoolean: exactly undefined, null, false, 0 and "" are falsy. */
  predicate Truthy(v: Value)
    ensures !Truthy(v) <==> v in {Undefined, Null, Bool(false), Num(0), Str("")}
  {
    match v
    case Undefined => false
    case Null => false
    case Bool(b) => b
    case Num(n) => n != 0
    case Str(s) => s != ""
  }

  /** The `!` operator always yields a boolean, of the opposite truthiness. */
  function Not(v: Value): (r: Value)
    ensures TypeOf(r) == "boolean"
    ensures Truthy(r) == !Truthy(v)
  {
    Bool(!Truthy(v))
  }

  /**
    `===` on primitive values: values of different types are never strictly
    equal, and every value is strictly equal to itself.
   */
  function StrictEquals(a: Value, b: Value): (r: bool)
    ensures TypeOf(a) != TypeOf(b) ==> !r
    ensures a == b ==> r
  {
    a == b
  }

  /** `a || b` yields `a` itself when it is truthy, otherwise `b`. */
  function Or(a: Value, b: Value): (r: Value)
    ensures Truthy(b) ==> Truthy(r)
    ensures r == a || r == b
  {
    if Truthy(a) then a else b
  }

  /**
    `!x === s` with a string `s` on the right compares a boolean with a
    string, so it never holds, whatever `x` and `s` are.
   */
  lemma NotNeverStrictEqualsString(x: Value, s: string)
    ensures !StrictEquals(Not(x), Str(s))
  {
  }
}
