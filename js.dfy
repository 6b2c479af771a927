/** JavaScript values as the component sees them: optional payload fields and
    the truthiness that decides every `if (x)` and `a || b` in the component. */
module Js {

  /** `undefined` is `None`; a present value is `Some`. */
  datatype Option<+T> = None | Some(value: T)

  /** A string is truthy iff it is present and not `''`. */
  predicate Truthy(s: Option<string>)
  {
    s.Some? && s.value != ""
  }

  /** A number is truthy iff it is present and not `0`. */
  predicate TruthyNumber(n: Option<int>)
  {
    n.Some? && n.value != 0
  }

  /** `a || b` on two optional strings. */
  function Or(a: Option<string>, b: Option<string>): Option<string>
  {
    if Truthy(a) then a else b
  }

  /** `a || 'literal'`: always a string. */
  function OrElse(a: Option<string>, fallback: string): string
  {
    if Truthy(a) then a.value else fallback
  }

  /** `if (x) out.f = x`: the field is set exactly when the value is truthy. */
  function KeepTruthy(a: Option<string>): Option<string>
  {
    if Truthy(a) then a else None
  }

  /** The numeric counterpart of `KeepTruthy`. */
  function KeepTruthyNumber(a: Option<int>): Option<int>
  {
    if TruthyNumber(a) then a else None
  }

  /** An output field copied from an input under `if (x)`: present exactly when
      the input is truthy, and then equal to it. */
  predicate CopiedIfTruthy(out: Option<string>, input: Option<string>)
  {
    (out.Some? <==> Truthy(input)) && (out.Some? ==> out == input)
  }

  predicate CopiedIfTruthyNumber(out: Option<int>, input: Option<int>)
  {
    (out.Some? <==> TruthyNumber(input)) && (out.Some? ==> out == input)
  }
}
