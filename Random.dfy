/** The injected random source and the two `probable` operations the pipeline uses:
    `roll(n)`, taken as `Math.floor(random() * n)`, and `pickFromArray(a)`, taken as
    `a[roll(a.length)]`. */
module Random {
  import opened Wrappers

  /** One value returned by `random()`: a number in [0, 1), kept as the exact fraction num/den
      (floating-point rounding is not modelled). */
  datatype Fraction = Fraction(num: nat, den: nat)

  /** A fraction in [0, 1), the only kind `random()` returns. */
  type Draw = f: Fraction | f.num < f.den witness Fraction(0, 1)

  /** `Math.floor(u * n)`. */
  function Scale(u: Draw, n: nat): (r: nat)
    ensures n > 0 ==> r < n
    ensures n == 0 ==> r == 0
  {
    ScaleBelow(u, n);
    (u.num * n) / u.den
  }

  lemma ScaleBelow(u: Draw, n: nat)
    ensures n > 0 ==> (u.num * n) / u.den < n
  {
    if n > 0 {
      var q := (u.num * n) / u.den;
      var r := (u.num * n) % u.den;
      assert u.num * n == q * u.den + r;
      var gap := (u.den - u.num) * n;
      assert gap == u.den * n - u.num * n;
      SignOfFactor(u.den - u.num - 1, n);
      assert (u.den - u.num - 1) * n == gap - n;
      assert (q - n) * u.den == q * u.den - n * u.den;
      SignOfFactor(q - n, u.den);
    }
  }

  lemma SignOfFactor(x: int, b: int)
    requires b > 0
    ensures x * b < 0 ==> x < 0
    ensures x * b >= 0 ==> x >= 0
  {
  }

  lemma MulDivCancel(a: nat, b: nat)
    requires b > 0
    ensures (a * b) / b == a
  {
    var q := (a * b) / b;
    var r := (a * b) % b;
    assert a * b == q * b + r;
    var x := a - q;
    assert x * b == r;
    assert (x - 1) * b == r - b;
    SignOfFactor(x - 1, b);
    SignOfFactor(x, b);
  }

  /** Every index below n is rolled by some value of `random()`: no index is unreachable. */
  lemma ScaleReaches(n: nat, i: nat)
    requires i < n
    ensures Scale(Fraction(i, n), n) == i
  {
    MulDivCancel(i, n);
  }

  /** `pickFromArray(a)`: an element of a, or `undefined` (None) when a is empty. */
  function Pick<T>(a: seq<T>, u: Draw): (r: Option<T>)
    ensures r.Some? <==> |a| > 0
    ensures r.Some? ==> r.value in a
  {
    var i := Scale(u, |a|);
    if i < |a| then Some(a[i]) else None
  }

  /** Every element of a non-empty array is picked by some value of `random()`. */
  lemma PickReaches<T>(a: seq<T>, i: nat)
    requires i < |a|
    ensures Pick(a, Fraction(i, |a|)) == Some(a[i])
  {
    ScaleReaches(|a|, i);
  }

  /** The `probable` instance built around the caller's `random`. The k-th call to `random()`
      made through this instance returns `random(k)`; `calls` counts the calls made so far. */
  class Probable {
    const random: nat -> Draw
    var calls: nat

    constructor (random: nat -> Draw)
      ensures this.random == random && calls == 0
    {
      this.random := random;
      calls := 0;
    }

    /** `probable.roll(n)`: one call to `random()`. */
    method Roll(n: nat) returns (r: nat)
      modifies this
      ensures calls == old(calls) + 1
      ensures r == Scale(random(old(calls)), n)
    {
      r := Scale(random(calls), n);
      calls := calls + 1;
    }

    /** `probable.pickFromArray(a)`: one roll over the length of a. */
    method PickFromArray<T>(a: seq<T>) returns (r: Option<T>)
      modifies this
      ensures calls == old(calls) + 1
      ensures r == Pick(a, random(old(calls)))
    {
      var i := Roll(|a|);
      r := if i < |a| then Some(a[i]) else None;
    }
  }
}
