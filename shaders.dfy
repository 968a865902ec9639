/**
 * The GLSL fragment shaders of the zooming Mandelbrot page and of the Julia
 * page: an `iterate` that starts the orbit at the pixel's own value, capped
 * at 10000 steps with the squared-norm escape test `< 4.0`, and a `main`
 * that maps the fragment coordinate into the complex rectangle and paints
 * the pixel black when the cap was reached and a palette colour otherwise.
 */
module Shaders {
  import opened Complex
  import opened EscapeTime

  const MaxIterations: nat := 10000
  const EscapeBound: real := 4.0

  /** The count the Mandelbrot `iterate(c)` computes: z0 = c, constant c. */
  function MandelbrotCount(c: Complex): nat
  {
    Count(c, c, MaxIterations, EscapeBound)
  }

  /** The count the Julia `iterate(z0)` computes under the uniform constant k. */
  function JuliaCount(z0: Complex, k: Complex): nat
  {
    Count(z0, k, MaxIterations, EscapeBound)
  }

  method MandelbrotIterate(cRe: real, cIm: real) returns (i: nat)
    ensures i == MandelbrotCount(Complex(cRe, cIm))
  {
    var re, im := cRe, cIm;
    var re2, im2 := re * re, im * im;
    i := 0;
    while i < MaxIterations && re2 + im2 < EscapeBound
      invariant i <= MaxIterations
      invariant re2 == re * re && im2 == im * im
      invariant CountFrom(Complex(re, im), Complex(cRe, cIm), i, MaxIterations, EscapeBound)
                == MandelbrotCount(Complex(cRe, cIm))
      decreases MaxIterations - i
    {
      CachedSquaresStep(Complex(cRe, cIm), re, im, re2, im2);
      CountFromStep(Complex(re, im), Complex(cRe, cIm), i, MaxIterations, EscapeBound);
      var temp := re2 - im2 + cRe;
      im := 2.0 * re * im + cIm;
      re := temp;
      re2 := re * re;
      im2 := im * im;
      i := i + 1;
    }
    CachedSquaresStep(Complex(cRe, cIm), re, im, re2, im2);
    CountFromStops(Complex(re, im), Complex(cRe, cIm), i, MaxIterations, EscapeBound);
  }

  method JuliaIterate(real0: real, imag0: real, constant: Complex) returns (i: nat)
    ensures i == JuliaCount(Complex(real0, imag0), constant)
  {
    var re, im := real0, imag0;
    var re2, im2 := re * re, im * im;
    i := 0;
    while i < MaxIterations && re2 + im2 < EscapeBound
      invariant i <= MaxIterations
      invariant re2 == re * re && im2 == im * im
      invariant CountFrom(Complex(re, im), constant, i, MaxIterations, EscapeBound)
                == JuliaCount(Complex(real0, imag0), constant)
      decreases MaxIterations - i
    {
      CachedSquaresStep(constant, re, im, re2, im2);
      CountFromStep(Complex(re, im), constant, i, MaxIterations, EscapeBound);
      var temp := re2 - im2 + constant.re;
      im := 2.0 * re * im + constant.im;
      re := temp;
      re2 := re * re;
      im2 := im * im;
      i := i + 1;
    }
    CachedSquaresStep(constant, re, im, re2, im2);
    CountFromStops(Complex(re, im), constant, i, MaxIterations, EscapeBound);
  }

  /**
   * The Mandelbrot shader at c gives the same count as the Julia shader
   * started at c with constant c.
   */
  method MandelbrotIsJuliaAtConstant(cRe: real, cIm: real) returns (mandelbrot: nat, julia: nat)
    ensures mandelbrot == julia
  {
    mandelbrot := MandelbrotIterate(cRe, cIm);
    julia := JuliaIterate(cRe, cIm, Complex(cRe, cIm));
  }

  /**
   * Starting at z0 = c skips the first step of the z0 = 0 iteration: the
   * shader count is one less than the z0 = 0 count under a cap one higher.
   */
  lemma ShaderSkipsFirstStep(c: Complex)
    ensures Count(Zero, c, MaxIterations + 1, EscapeBound) == MandelbrotCount(c) + 1
  {
    StartAtConstant(c, MaxIterations, EscapeBound);
  }

  /** The shader count is at most the cap; c = 0 reaches it. */
  lemma MandelbrotCountRange(c: Complex)
    ensures MandelbrotCount(c) <= MaxIterations
    ensures Norm2(c) >= EscapeBound ==> MandelbrotCount(c) == 0
    ensures c == Zero ==> MandelbrotCount(c) == MaxIterations
  {
    CountIsFirstEscape(c, c, MaxIterations, EscapeBound);
    if c == Zero {
      OriginReachesCap(MaxIterations, EscapeBound);
    }
  }

  /**
   * The complex point a fragment is sampled at: the fragment coordinate
   * divided by the canvas size, scaled by the rectangle's extent and offset
   * by its lower corner.
   */
  function FragmentPoint(fragX: real, fragY: real, wPixels: real, hPixels: real,
                         complexMin: Complex, complexMax: Complex): (c: Complex)
    requires wPixels > 0.0 && hPixels > 0.0
    ensures fragX == 0.0 && fragY == 0.0 ==> c == complexMin
    ensures fragX == wPixels && fragY == hPixels ==> c == complexMax
  {
    Complex(fragX / wPixels * (complexMax.re - complexMin.re) + complexMin.re,
            fragY / hPixels * (complexMax.im - complexMin.im) + complexMin.im)
  }

  /**
   * The colour a fragment `main` writes: black, or the shader's colour
   * function (a palette, or a grey level) applied to the ratio of the count
   * to the cap. The colour function itself is not modelled.
   */
  datatype FragColour = Black | ColourAt(ratio: real)

  function FragmentColour(iterations: nat, maxIterations: nat): (r: FragColour)
    requires maxIterations > 0
    ensures r == Black <==> iterations == maxIterations
    ensures r.ColourAt? ==> r.ratio * (maxIterations as real) == iterations as real
    ensures r.ColourAt? && iterations <= maxIterations ==> 0.0 <= r.ratio < 1.0
  {
    if iterations == maxIterations then Black
    else ColourAt((iterations as real) / (maxIterations as real))
  }

  /**
   * A fragment is black exactly when the orbit of its point stays below the
   * escape bound for all 10000 steps.
   */
  lemma BlackIffBounded(c: Complex)
    ensures FragmentColour(MandelbrotCount(c), MaxIterations) == Black
            <==> forall m :: 0 <= m < MaxIterations ==> Norm2(Orbit(c, c, m)) < EscapeBound
  {
    CountIsFirstEscape(c, c, MaxIterations, EscapeBound);
  }
}
