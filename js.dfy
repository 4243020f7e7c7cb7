/**
  The part of JavaScript's semantics the controller relies on: truthiness
  (the ToBoolean abstract operation, section 7.1.2 of ECMA-262) and the `||`
  operator, which yields its left operand when that operand is truthy and its
  right operand otherwise (section 13.13 of ECMA-262).
*/
module Js {
  import opened Wrappers

  /** A JavaScript number: a finite value or NaN. */
  datatype Number = Finite(value: real) | NaN

  /** ToBoolean of an optional string: `undefined`, `null` and `""` are falsy. */
  predicate StringTruthy(x: Option<string>) {
    x.Some? && x.value != ""
  }

  /** ToBoolean of an optional number: `undefined`, `null`, `0`, `-0` and `NaN` are falsy. */
  predicate NumberTruthy(x: Option<Number>) {
    x.Some? && x.value.Finite? && x.value.value != 0.0
  }

  /** `x || fallback` for a string operand. */
  function StringOr(x: Option<string>, fallback: string): string {
    if StringTruthy(x) then x.value else fallback
  }

  /** `x || fallback` for a number operand whose fallback is a finite number. */
  function NumberOr(x: Option<Number>, fallback: real): real {
    if NumberTruthy(x) then x.value.value else fallback
  }
}
