/**
 * The two CPU ("vanilla") iterators of the zooming Mandelbrot page: a
 * functional one that rebuilds a complex value every step through the map
 * returned by `generate_mandelbrot_set_function`, and an imperative one that
 * keeps re, im and their squares in scalars. Both start from z = 0, stop at
 * 50 steps or when the squared norm reaches 4, and are proved equal to the
 * same escape-time count.
 */
module MandelbrotIterators {
  import opened Complex
  import opened EscapeTime

  const MaxIterationsVanilla: nat := 50
  const EscapeBound: real := 4.0

  /** The count both vanilla iterators compute for c = (cRe, cIm). */
  function VanillaCount(cRe: real, cIm: real): nat
  {
    Count(Zero, Complex(cRe, cIm), MaxIterationsVanilla, EscapeBound)
  }

  method FunctionalIterate(cRe: real, cIm: real) returns (iterations: nat)
    ensures iterations == VanillaCount(cRe, cIm)
  {
    var c := Complex(cRe, cIm);
    var z := Zero;
    iterations := 0;
    while iterations < MaxIterationsVanilla && Norm2(z) < EscapeBound
      invariant iterations <= MaxIterationsVanilla
      invariant CountFrom(z, c, iterations, MaxIterationsVanilla, EscapeBound) == VanillaCount(cRe, cIm)
      decreases MaxIterationsVanilla - iterations
    {
      z := MandelFunc(c, z);
      iterations := iterations + 1;
    }
  }

  method ImperativeIterate(cRe: real, cIm: real) returns (iterations: nat)
    ensures iterations == VanillaCount(cRe, cIm)
  {
    iterations := 0;
    var re, im, re2, im2 := 0.0, 0.0, 0.0, 0.0;
    while iterations < MaxIterationsVanilla && re2 + im2 < EscapeBound
      invariant iterations <= MaxIterationsVanilla
      invariant re2 == re * re && im2 == im * im
      invariant CountFrom(Complex(re, im), Complex(cRe, cIm), iterations, MaxIterationsVanilla, EscapeBound)
                == VanillaCount(cRe, cIm)
      decreases MaxIterationsVanilla - iterations
    {
      CachedSquaresStep(Complex(cRe, cIm), re, im, re2, im2);
      CountFromStep(Complex(re, im), Complex(cRe, cIm), iterations, MaxIterationsVanilla, EscapeBound);
      var tempReal := re2 - im2 + cRe;
      im := 2.0 * re * im + cIm;
      re := tempReal;
      re2 := re * re;
      im2 := im * im;
      iterations := iterations + 1;
    }
    CachedSquaresStep(Complex(cRe, cIm), re, im, re2, im2);
    CountFromStops(Complex(re, im), Complex(cRe, cIm), iterations, MaxIterationsVanilla, EscapeBound);
  }

  /**
   * The two iterators are interchangeable as a canvas's iterator: for every
   * c they return the same count.
   */
  method CompareIterators(cRe: real, cIm: real) returns (functional: nat, imperative: nat)
    ensures functional == imperative
  {
    functional := FunctionalIterate(cRe, cIm);
    imperative := ImperativeIterate(cRe, cIm);
  }

  /**
   * Every vanilla count lies in [1, 50]; the origin reaches 50, and a
   * constant with squared norm at least 4 stops after exactly one step.
   */
  lemma VanillaCountRange(cRe: real, cIm: real)
    ensures 1 <= VanillaCount(cRe, cIm) <= MaxIterationsVanilla
    ensures cRe == 0.0 && cIm == 0.0 ==> VanillaCount(cRe, cIm) == MaxIterationsVanilla
    ensures Norm2(Complex(cRe, cIm)) >= EscapeBound ==> VanillaCount(cRe, cIm) == 1
  {
    var c := Complex(cRe, cIm);
    CountFromOriginInRange(c, MaxIterationsVanilla, EscapeBound);
    if cRe == 0.0 && cIm == 0.0 {
      assert c == Zero;
      OriginReachesCap(MaxIterationsVanilla, EscapeBound);
    }
    if Norm2(c) >= EscapeBound {
      ImmediateEscape(c, MaxIterationsVanilla, EscapeBound);
    }
  }
}
