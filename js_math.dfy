/** The JavaScript numeric operations the services use, on mathematical
    numbers: `Math.round`, `Math.abs`, `Math.floor` of a quotient, and the
    truncating remainder `%`. Dates are integer milliseconds. */
module JsMath {

  const MS_PER_MINUTE: nat := 60 * 1000
  const MS_PER_HOUR: nat := 60 * 60 * 1000
  const MS_PER_DAY: nat := 24 * 60 * 60 * 1000

  /** `Math.round(x)`: the nearest integer, halves rounded towards +infinity. */
  function Round(x: real): (r: int)
    ensures r as real - 0.5 <= x < r as real + 0.5
  {
    (x + 0.5).Floor
  }

  function Abs(x: int): (r: nat)
    ensures r == x || r == -x
  {
    if x < 0 then -x else x
  }

  /** `Math.floor(a / b)` for a positive divisor (Dafny's `/` on `int`
      rounds towards minus infinity when the divisor is positive). */
  function FloorDiv(a: int, b: int): (q: int)
    requires b > 0
    ensures q * b <= a < (q + 1) * b
  {
    a / b
  }

  /** `Math.trunc(a / b)` for a positive divisor. */
  function Trunc(a: int, b: int): (q: int)
    requires b > 0
    ensures a >= 0 ==> q * b <= a < (q + 1) * b
    ensures a < 0 ==> (q - 1) * b < a <= q * b
  {
    if a >= 0 then a / b else -((-a) / b)
  }

  /** JavaScript's `a % b` for a positive divisor: the remainder takes the
      sign of the dividend (it truncates, unlike Dafny's `%`). */
  function Rem(a: int, b: int): (r: int)
    requires b > 0
    ensures a >= 0 ==> 0 <= r < b
    ensures a < 0 ==> -b < r <= 0
    ensures a == Trunc(a, b) * b + r
  {
    if a >= 0 then a % b else -((-a) % b)
  }

  /** For an integer `v`, `Math.round(v / 150)` is floor division of `v + 75`. */
  lemma {:induction false} RoundOfQuotient150(v: int)
    ensures Round(v as real / 150.0) == (v + 75) / 150
  {
    var q := (v + 75) / 150;
    var r := (v + 75) % 150;
    assert v + 75 == 150 * q + r;
    assert v as real / 150.0 + 0.5 == q as real + r as real / 150.0;
  }
}
