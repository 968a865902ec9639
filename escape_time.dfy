/**
 * The escape-time count that every iterator of the fractal scripts
 * computes: start from z0, apply z <- z*z + k while fewer than `cap`
 * steps were taken and the squared norm of z is below `bound`, and report
 * the number of steps taken.
 *
 * `CountFrom` is the reference definition the loop implementations are
 * proved against; `Orbit` gives the n-th point of the orbit independently,
 * and `CountIsFirstEscape` ties the two together.
 */
module EscapeTime {
  import opened Complex

  /** The n-th point of the orbit of z0 under z <- z*z + k. */
  function Orbit(z0: Complex, k: Complex, n: nat): Complex
  {
    if n == 0 then z0 else MandelFunc(k, Orbit(z0, k, n - 1))
  }

  /**
   * Steps counted so far `i`, current point `z`: keep stepping while
   * `i < cap` and `Norm2(z) < bound`, then return the step count.
   */
  function CountFrom(z: Complex, k: Complex, i: nat, cap: nat, bound: real): (n: nat)
    decreases cap - i
  {
    if i < cap && Norm2(z) < bound then CountFrom(MandelFunc(k, z), k, i + 1, cap, bound) else i
  }

  /** One more step is taken exactly when the loop condition holds. */
  lemma CountFromStep(z: Complex, k: Complex, i: nat, cap: nat, bound: real)
    requires i < cap && Norm2(z) < bound
    ensures CountFrom(z, k, i, cap, bound) == CountFrom(MandelFunc(k, z), k, i + 1, cap, bound)
  {
  }

  /** Once the loop condition fails, the count is the steps taken so far. */
  lemma CountFromStops(z: Complex, k: Complex, i: nat, cap: nat, bound: real)
    requires !(i < cap && Norm2(z) < bound)
    ensures CountFrom(z, k, i, cap, bound) == i
  {
  }

  function Count(z0: Complex, k: Complex, cap: nat, bound: real): nat
  {
    CountFrom(z0, k, 0, cap, bound)
  }

  /**
   * The count is the first step index at which the orbit has squared norm
   * at least `bound`, or `cap` when no such index comes before it.
   */
  lemma {:induction false} CountFromIsFirstEscape(z0: Complex, k: Complex, i: nat, cap: nat, bound: real)
    requires i <= cap
    ensures var n := CountFrom(Orbit(z0, k, i), k, i, cap, bound);
      && i <= n <= cap
      && (forall m :: i <= m < n ==> Norm2(Orbit(z0, k, m)) < bound)
      && (n < cap ==> Norm2(Orbit(z0, k, n)) >= bound)
    decreases cap - i
  {
    if i < cap && Norm2(Orbit(z0, k, i)) < bound {
      assert Orbit(z0, k, i + 1) == MandelFunc(k, Orbit(z0, k, i));
      CountFromIsFirstEscape(z0, k, i + 1, cap, bound);
    }
  }

  lemma CountIsFirstEscape(z0: Complex, k: Complex, cap: nat, bound: real)
    ensures var n := Count(z0, k, cap, bound);
      && n <= cap
      && (forall m :: 0 <= m < n ==> Norm2(Orbit(z0, k, m)) < bound)
      && (n < cap ==> Norm2(Orbit(z0, k, n)) >= bound)
  {
    CountFromIsFirstEscape(z0, k, 0, cap, bound);
  }

  /** Starting from the origin with a positive bound, at least one step is taken. */
  lemma CountFromOriginInRange(k: Complex, cap: nat, bound: real)
    requires cap >= 1 && bound > 0.0
    ensures 1 <= Count(Zero, k, cap, bound) <= cap
  {
    CountIsFirstEscape(Zero, k, cap, bound);
  }

  /** Every point of the orbit of zero under constant zero is zero. */
  lemma {:induction false} OriginOrbitIsZero(n: nat)
    ensures Orbit(Zero, Zero, n) == Zero
  {
    if n > 0 {
      OriginOrbitIsZero(n - 1);
      var p := Orbit(Zero, Zero, n - 1);
      assert Orbit(Zero, Zero, n) == MandelFunc(Zero, p);
      assert Mul(p, p) == Zero;
    }
  }

  /** The origin never escapes: c = 0 always reaches the cap. */
  lemma OriginReachesCap(cap: nat, bound: real)
    requires bound > 0.0
    ensures Count(Zero, Zero, cap, bound) == cap
  {
    CountIsFirstEscape(Zero, Zero, cap, bound);
    var n := Count(Zero, Zero, cap, bound);
    if n < cap {
      OriginOrbitIsZero(n);
    }
  }

  /**
   * From z0 = 0, a constant whose squared norm is at least the bound stops
   * after exactly one step: the first step lands on the constant itself.
   */
  lemma ImmediateEscape(k: Complex, cap: nat, bound: real)
    requires cap >= 1 && bound > 0.0 && Norm2(k) >= bound
    ensures Count(Zero, k, cap, bound) == 1
  {
    assert CountFrom(Zero, k, 0, cap, bound) == CountFrom(MandelFunc(k, Zero), k, 1, cap, bound);
    StepFromZero(k);
    assert CountFrom(k, k, 1, cap, bound) == 1;
  }

  /**
   * Counting one step later against a cap one higher adds exactly one to
   * the count.
   */
  lemma {:induction false} CountFromShift(z: Complex, k: Complex, i: nat, cap: nat, bound: real)
    requires i <= cap
    ensures CountFrom(z, k, i + 1, cap + 1, bound) == CountFrom(z, k, i, cap, bound) + 1
    decreases cap - i
  {
    if i < cap && Norm2(z) < bound {
      CountFromShift(MandelFunc(k, z), k, i + 1, cap, bound);
    }
  }

  /**
   * Starting the orbit at z0 = c (as the shader iterators do) skips the
   * first step of the z0 = 0 iteration: with a cap one higher, the z0 = 0
   * count is one more than the z0 = c count.
   */
  lemma StartAtConstant(c: Complex, cap: nat, bound: real)
    requires bound > 0.0
    ensures Count(Zero, c, cap + 1, bound) == Count(c, c, cap, bound) + 1
  {
    assert CountFrom(Zero, c, 0, cap + 1, bound) == CountFrom(MandelFunc(c, Zero), c, 1, cap + 1, bound);
    StepFromZero(c);
    CountFromShift(c, c, 0, cap, bound);
  }
}
