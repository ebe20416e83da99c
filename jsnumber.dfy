/**
 * The part of JavaScript number semantics the analyser depends on, over exact
 * rationals: NaN propagation, division of a running total by a count,
 * `Math.round`, and the iteration count of a `for` loop whose bounds are
 * not integers.
 */
module JsNumber {

  /** One element of a `Uint8ClampedArray`. */
  type Byte = x: int | 0 <= x < 256

  /** A JavaScript number as it arises here: a finite value or NaN. */
  datatype Num = Finite(v: real) | NaN

  /** `a + b`: NaN is absorbing. */
  function Add(a: Num, b: Num): (r: Num)
    ensures r.Finite? <==> a.Finite? && b.Finite?
    ensures r.Finite? ==> r.v == a.v + b.v
  {
    if a.Finite? && b.Finite? then Finite(a.v + b.v) else NaN
  }

  /**
   * `total / count` for a non-negative count, where `0 / 0` is NaN. A
   * non-zero total over a zero count, which JavaScript makes +-Infinity,
   * never reaches this function: every zero count of the analyser comes with
   * a zero total. It is mapped to NaN here.
   */
  function DivByCount(total: Num, count: nat): (r: Num)
    ensures r.Finite? <==> total.Finite? && count > 0
    ensures r.Finite? ==> r.v * count as real == total.v
  {
    if total.Finite? && count > 0 then Finite(total.v / count as real) else NaN
  }

  /** `Math.max(a, b, c)`: NaN as soon as one argument is NaN. */
  function Max3(a: Num, b: Num, c: Num): (r: Num)
    ensures r.Finite? <==> a.Finite? && b.Finite? && c.Finite?
    ensures r.Finite? ==> r.v >= a.v && r.v >= b.v && r.v >= c.v
    ensures r.Finite? ==> r.v == a.v || r.v == b.v || r.v == c.v
  {
    if a.Finite? && b.Finite? && c.Finite? then
      Finite(if a.v >= b.v && a.v >= c.v then a.v else if b.v >= c.v then b.v else c.v)
    else NaN
  }

  /** `Math.min(a, b, c)`: NaN as soon as one argument is NaN. */
  function Min3(a: Num, b: Num, c: Num): (r: Num)
    ensures r.Finite? <==> a.Finite? && b.Finite? && c.Finite?
    ensures r.Finite? ==> r.v <= a.v && r.v <= b.v && r.v <= c.v
    ensures r.Finite? ==> r.v == a.v || r.v == b.v || r.v == c.v
  {
    if a.Finite? && b.Finite? && c.Finite? then
      Finite(if a.v <= b.v && a.v <= c.v then a.v else if b.v <= c.v then b.v else c.v)
    else NaN
  }

  /** `a - b`. */
  function Sub(a: Num, b: Num): Num {
    if a.Finite? && b.Finite? then Finite(a.v - b.v) else NaN
  }

  /** `a < c` for a finite constant c: every comparison with NaN is false. */
  predicate Less(a: Num, c: real) {
    a.Finite? && a.v < c
  }

  /** `a > c` for a finite constant c. */
  predicate Greater(a: Num, c: real) {
    a.Finite? && a.v > c
  }

  function Abs(x: real): real {
    if x < 0.0 then -x else x
  }

  function MaxReal(a: real, b: real): real {
    if a >= b then a else b
  }

  function MinReal(a: real, b: real): real {
    if a <= b then a else b
  }

  /** A total of n terms, each in [0, hi], divided by n lies in [0, hi]. */
  lemma {:induction false} MeanBounded(total: real, n: real, hi: real)
    requires 0.0 < n && 0.0 <= total <= hi * n
    ensures 0.0 <= total / n <= hi
  {
    var q := total / n;
    assert q * n == total;
    if q > hi {
      assert q * n > hi * n;
    }
  }

  /** A count below n, divided by n, lies in [0, 1). */
  lemma {:induction false} FractionBelowOne(x: real, n: real)
    requires 0.0 <= x < n
    ensures 0.0 <= x / n < 1.0
  {
    assert x / n * n == x;
  }

  lemma {:induction false} DivByOwnCount(n: nat)
    requires n >= 1
    ensures DivByCount(Finite(n as real), n) == Finite(1.0)
  {
  }

  lemma {:induction false} MulCommutes(a: int, b: int)
    ensures a * b == b * a
  {
  }

  lemma {:induction false} MulStep(a: int, b: int)
    ensures a * b + b == (a + 1) * b
  {
  }

  lemma {:induction false} ProductAtLeastOne(a: int, b: int)
    requires a >= 1 && b >= 1
    ensures a * b >= 1
  {
    assert a * b >= 1 * b;
  }

  /** For a multiple of 3, a third and two thirds of it are integers. */
  lemma {:induction false} ThirdsOfMultiple(n: nat)
    requires n % 3 == 0
    ensures n as real / 3.0 == (n / 3) as real
    ensures 2.0 * n as real / 3.0 == (2 * (n / 3)) as real
  {
  }

  /** `Math.round`: the nearest integer, halves rounded towards +infinity. */
  function Round(x: real): (r: int)
    ensures x - 0.5 < r as real <= x + 0.5
  {
    (x + 0.5).Floor
  }

  predicate IsInteger(x: real) {
    x.Floor as real == x
  }

  /** How often the body of `for (v = a; v < b; v++)` runs. */
  function Steps(a: real, b: real): (k: nat)
    ensures a + k as real >= b
    ensures k > 0 ==> a + (k - 1) as real < b
  {
    if a < b then -((a - b).Floor) else 0
  }

  /** The loop variable after k increments is still below the bound exactly while k < Steps(a, b). */
  lemma {:induction false} StepsExact(a: real, b: real, k: nat)
    ensures a + k as real < b <==> k < Steps(a, b)
  {
  }

  /** With integer bounds the loop runs b - a times. */
  lemma {:induction false} StepsOfIntegers(a: int, b: int)
    ensures Steps(a as real, b as real) == if a < b then b - a else 0
  {
  }
}
