/** Shared vocabulary: optional values and the arithmetic the trading code runs on. */
module Numerics {

  datatype Option<+T> = None | Some(value: T) {
    function GetOr(default: T): T {
      match this
      case Some(v) => v
      case None => default
    }
  }

  /** The arithmetic a computation is carried out in.

      `Exact` is real arithmetic. `Machine` takes every operation, and the built-in summation of a list, as a
      parameter: a result proved for every `Arith` holds bit for bit under any rounding rule. Comparisons, negation,
      `abs`, `min` and `max` never round, so they are those of the reals in both cases. */
  datatype Arith =
    | Exact
    | Machine(
        add: (real, real) -> real,
        sub: (real, real) -> real,
        mul: (real, real) -> real,
        div: (real, real) -> real,
        sum: seq<real> -> real)
  {
    function Add(x: real, y: real): real {
      if Exact? then x + y else add(x, y)
    }

    function Sub(x: real, y: real): real {
      if Exact? then x - y else sub(x, y)
    }

    function Mul(x: real, y: real): real {
      if Exact? then x * y else mul(x, y)
    }

    /** Division is total; every divisor the modelled code reaches is guarded by it against zero. */
    function Div(x: real, y: real): real {
      if Exact? then (if y == 0.0 then 0.0 else x / y) else div(x, y)
    }

    function Sum(xs: seq<real>): real {
      if Exact? then Total(xs) else sum(xs)
    }

    /** Adding a product with zero changes nothing: true of the reals and of finite IEEE-754 numbers. */
    ghost predicate ZeroNeutral() {
      forall c: real, x: real :: Add(c, Mul(0.0, x)) == c
    }
  }

  function Total(xs: seq<real>): real {
    if xs == [] then 0.0 else Total(xs[..|xs| - 1]) + xs[|xs| - 1]
  }

  function Max(x: real, y: real): (r: real)
    ensures r >= x && r >= y && (r == x || r == y)
  {
    if x >= y then x else y
  }

  function Min(x: real, y: real): (r: real)
    ensures r <= x && r <= y && (r == x || r == y)
  {
    if x <= y then x else y
  }

  function Abs(x: real): (r: real)
    ensures r >= 0.0 && (r == x || r == -x)
  {
    if x < 0.0 then -x else x
  }

  const DAY_MS: int := 86_400_000

  /** Calendar day (UTC) of a millisecond timestamp; the divisor is positive, so `/` floors. */
  function UtcDay(ts: int): int {
    ts / DAY_MS
  }
}
