/** The JavaScript values that the dashboard code reads and produces. */
module Js {

  /** `null`/`undefined` versus a present value. */
  datatype Option<+T> = None | Some(value: T) {

    /** `x || default` for a value that is absent. */
    function GetOr(default: T): T {
      match this
      case Some(v) => v
      case None => default
    }

    /** Optional chaining, `x?.field`. */
    function Map<U>(f: T -> U): Option<U> {
      match this
      case Some(v) => Some(f(v))
      case None => None
    }
  }

  /**
   * A JavaScript number. Finite numbers are exact reals (binary floating point
   * is not modelled); NaN is what `parseInt`/`parseFloat` give on text without digits.
   */
  datatype Num = Finite(r: real) | NaN

  const Zero: Num := Finite(0.0)

  /** `n ? a : b` and `n || d`: 0 and NaN are falsy, every other number is truthy. */
  predicate Truthy(n: Num) {
    n.Finite? && n.r != 0.0
  }

  /** `n || 0`. */
  function OrZero(n: Num): (z: Num)
    ensures z.Finite?
    ensures Truthy(n) ==> z == n
    ensures !Truthy(n) ==> z == Zero
  {
    if Truthy(n) then n else Zero
  }

  /** `a + b` on numbers: NaN absorbs everything. */
  function Add(a: Num, b: Num): Num {
    if a.Finite? && b.Finite? then Finite(a.r + b.r) else NaN
  }

  /** `n > 0`: false for NaN. */
  predicate Positive(n: Num) {
    n.Finite? && n.r > 0.0
  }

  /** `Number.isInteger(n)`. */
  predicate IsInteger(n: Num) {
    n.Finite? && n.r == n.r.Floor as real
  }

  /**
   * A cell of a KPI row: `number | string`, plus `null`/`undefined`.
   * PercentText(x) and SecondsText(x) are the strings the server renders from a
   * bounce rate x (`(x * 100).toFixed(1) + '%'`) and a duration x
   * (`Math.round(x) + 's'`); their characters are not modelled.
   */
  datatype Cell =
    | Number(n: Num)
    | Text(s: string)
    | PercentText(ratio: real)
    | SecondsText(secs: real)
    | Nullish

  /** A number cell holding an integer constant. */
  function Int(i: int): Cell {
    Number(Finite(i as real))
  }
}
