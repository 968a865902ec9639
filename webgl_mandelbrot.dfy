/**
 * The first WebGL Mandelbrot page. Its fragment shader's `iterate` starts
 * at z0 = c, runs a `for` loop over i = 0..20 that breaks as soon as the
 * squared norm exceeds 4 and otherwise applies the map and records
 * `iterations = i`; `main` maps the fragment into the complex rectangle and
 * paints black when the result equals 20 and a grey level otherwise.
 *
 * Because `iterations` is assigned the loop index after the update, the
 * result is one less than the number of updates taken (and 0 when none
 * was taken).
 */
module WebglMandelbrot {
  import opened Complex
  import opened EscapeTime
  import Shaders

  const MaxIterations: nat := 20
  const EscapeBound: real := 4.0

  /** The loop index recorded after the update of pass i - 1. */
  function Recorded(i: nat): nat
  {
    if i == 0 then 0 else i - 1
  }

  /**
   * The loop from pass i onward, at point z with `iterations` recorded so
   * far: stop after pass 20 or when the squared norm exceeds the bound.
   */
  function IterateFrom(z: Complex, c: Complex, i: nat, iterations: nat): nat
    decreases MaxIterations + 1 - i
  {
    if i > MaxIterations || Norm2(z) > EscapeBound then iterations
    else IterateFrom(MandelFunc(c, z), c, i + 1, i)
  }

  /** The value the shader's `iterate(c)` returns. */
  function WebglCount(c: Complex): nat
  {
    IterateFrom(c, c, 0, 0)
  }

  method Iterate(real0: real, imag0: real) returns (iterations: nat)
    ensures iterations == WebglCount(Complex(real0, imag0))
  {
    var re, im := real0, imag0;
    iterations := 0;
    var i := 0;
    while i <= MaxIterations
      invariant i <= MaxIterations + 1
      invariant IterateFrom(Complex(re, im), Complex(real0, imag0), i, iterations)
                == WebglCount(Complex(real0, imag0))
      decreases MaxIterations + 1 - i
    {
      CachedSquaresStep(Complex(real0, imag0), re, im, re * re, im * im);
      if re * re + im * im > EscapeBound {
        IterateStops(Complex(re, im), Complex(real0, imag0), i, iterations);
        break;
      }
      IterateStep(Complex(re, im), Complex(real0, imag0), i, iterations);
      var temp := re * re - im * im + real0;
      im := 2.0 * re * im + imag0;
      re := temp;
      iterations := i;
      i := i + 1;
    }
  }

  lemma IterateStops(z: Complex, c: Complex, i: nat, iterations: nat)
    requires Norm2(z) > EscapeBound
    ensures IterateFrom(z, c, i, iterations) == iterations
  {
  }

  lemma IterateStep(z: Complex, c: Complex, i: nat, iterations: nat)
    requires i <= MaxIterations && Norm2(z) <= EscapeBound
    ensures IterateFrom(z, c, i, iterations) == IterateFrom(MandelFunc(c, z), c, i + 1, i)
  {
  }

  /** The orbit leaves the bound at step m. */
  predicate Escaped(c: Complex, m: nat)
  {
    Norm2(Orbit(c, c, m)) > EscapeBound
  }

  /** No step in [lo, hi) leaves the bound. */
  predicate BoundedBetween(c: Complex, lo: nat, hi: nat)
  {
    forall m :: lo <= m < hi ==> !Escaped(c, m)
  }

  /** The loop from pass i onward, when the first escape is at step k. */
  lemma {:induction false} FirstEscapeFrom(c: Complex, i: nat, k: nat)
    requires i <= k <= MaxIterations
    requires BoundedBetween(c, i, k) && Escaped(c, k)
    ensures IterateFrom(Orbit(c, c, i), c, i, Recorded(i)) == Recorded(k)
    decreases k - i
  {
    if i < k {
      assert !Escaped(c, i);
      assert Orbit(c, c, i + 1) == MandelFunc(c, Orbit(c, c, i));
      FirstEscapeFrom(c, i + 1, k);
    }
  }

  /** The loop from pass i onward, when no step up to 20 escapes. */
  lemma {:induction false} NoEscapeFrom(c: Complex, i: nat)
    requires i <= MaxIterations + 1
    requires BoundedBetween(c, i, MaxIterations + 1)
    ensures IterateFrom(Orbit(c, c, i), c, i, Recorded(i)) == if i == MaxIterations + 1 then Recorded(i) else MaxIterations
    decreases MaxIterations + 1 - i
  {
    if i <= MaxIterations {
      assert !Escaped(c, i);
      assert Orbit(c, c, i + 1) == MandelFunc(c, Orbit(c, c, i));
      NoEscapeFrom(c, i + 1);
    }
  }

  /**
   * A first escape at step k >= 1 gives k - 1; an escape at step 0 gives 0;
   * no escape in steps 0..20 gives 20.
   */
  lemma WebglCountIsFirstEscape(c: Complex)
    ensures forall k :: 0 <= k <= MaxIterations && BoundedBetween(c, 0, k) && Escaped(c, k)
                        ==> WebglCount(c) == Recorded(k)
    ensures BoundedBetween(c, 0, MaxIterations + 1) ==> WebglCount(c) == MaxIterations
  {
    forall k | 0 <= k <= MaxIterations && BoundedBetween(c, 0, k) && Escaped(c, k)
      ensures WebglCount(c) == Recorded(k)
    {
      FirstEscapeFrom(c, 0, k);
    }
    if BoundedBetween(c, 0, MaxIterations + 1) {
      NoEscapeFrom(c, 0);
    }
  }

  /** Some step in [lo, hi) escapes, so a first one exists. */
  lemma {:induction false} FirstEscapeExists(c: Complex, lo: nat, hi: nat) returns (k: nat)
    requires BoundedBetween(c, 0, lo) && lo <= hi
    requires !BoundedBetween(c, 0, hi)
    ensures lo <= k < hi && BoundedBetween(c, 0, k) && Escaped(c, k)
    decreases hi - lo
  {
    if Escaped(c, lo) {
      k := lo;
    } else {
      assert BoundedBetween(c, 0, lo + 1);
      k := FirstEscapeExists(c, lo + 1, hi);
    }
  }

  /**
   * The result lies in [0, 20], and it is 20 exactly when the escape test
   * never fires for i = 0..20.
   */
  lemma WebglCountRange(c: Complex)
    ensures WebglCount(c) <= MaxIterations
    ensures WebglCount(c) == MaxIterations <==> BoundedBetween(c, 0, MaxIterations + 1)
  {
    WebglCountIsFirstEscape(c);
    if !BoundedBetween(c, 0, MaxIterations + 1) {
      var k := FirstEscapeExists(c, 0, MaxIterations + 1);
    }
  }

  /** A constant outside the bound breaks at i = 0 and returns 0. */
  lemma EscapesImmediately(c: Complex)
    requires Norm2(c) > EscapeBound
    ensures WebglCount(c) == 0
  {
  }

  /** For c = 0 the escape test never fires and the result is 20. */
  lemma OriginReachesMax()
    ensures WebglCount(Zero) == MaxIterations
  {
    OriginBounded(MaxIterations + 1);
    WebglCountRange(Zero);
  }

  /** The origin's orbit never leaves the bound. */
  lemma OriginBounded(n: nat)
    ensures BoundedBetween(Zero, 0, n)
  {
    forall m: nat | m < n
      ensures !Escaped(Zero, m)
    {
      OriginOrbitIsZero(m);
    }
  }

  /**
   * The colour `main` writes at fragment (x, y): the fragment is mapped
   * into the rectangle, and it is black exactly when the count equals 20.
   */
  function FragmentColourAt(fragX: real, fragY: real, wPixels: real, hPixels: real,
                            complexMin: Complex, complexMax: Complex): (r: Shaders.FragColour)
    requires wPixels > 0.0 && hPixels > 0.0
    ensures r == Shaders.Black
            <==> BoundedBetween(Shaders.FragmentPoint(fragX, fragY, wPixels, hPixels, complexMin, complexMax),
                                0, MaxIterations + 1)
  {
    var c := Shaders.FragmentPoint(fragX, fragY, wPixels, hPixels, complexMin, complexMax);
    WebglCountRange(c);
    Shaders.FragmentColour(WebglCount(c), MaxIterations)
  }
}
