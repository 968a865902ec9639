/**
 * The complex arithmetic kernel shared by the fractal scripts: complex
 * values as (real, imag) pairs, squared norm, product, sum, and the
 * quadratic map z -> z*z + c that the Mandelbrot and Julia iterators apply.
 * Numbers are exact reals.
 */
module Complex {

  datatype Complex = Complex(re: real, im: real)

  const Zero: Complex := Complex(0.0, 0.0)

  /** Squared norm re^2 + im^2 (`norm2` in one script, `norm` in the other). */
  function Norm2(z: Complex): (r: real)
    ensures r >= 0.0
  {
    z.re * z.re + z.im * z.im
  }

  function Mul(z1: Complex, z2: Complex): Complex
  {
    Complex(z1.re * z2.re - z1.im * z2.im, z1.re * z2.im + z1.im * z2.re)
  }

  function Add(z1: Complex, z2: Complex): Complex
  {
    Complex(z1.re + z2.re, z1.im + z2.im)
  }

  /**
   * The map built by `generate_mandelbrot_set_function(c)`: the closure it
   * returns becomes a function that takes the captured constant explicitly.
   */
  function MandelFunc(c: Complex, z: Complex): Complex
  {
    Add(Mul(z, z), c)
  }

  /** Complex multiplication does not depend on the order of its operands. */
  lemma MulCommutes(z1: Complex, z2: Complex)
    ensures Mul(z1, z2) == Mul(z2, z1)
  {
  }

  /**
   * One application of the map, written in the form the imperative
   * iterators use: the new real part is re^2 - im^2 + c.re and the new
   * imaginary part is 2 re im + c.im.
   */
  lemma MandelFuncParts(c: Complex, z: Complex)
    ensures MandelFunc(c, z).re == z.re * z.re - z.im * z.im + c.re
    ensures MandelFunc(c, z).im == 2.0 * z.re * z.im + c.im
  {
  }

  /** From z = 0, one application of the map lands on the constant. */
  lemma StepFromZero(c: Complex)
    ensures MandelFunc(c, Zero) == c
  {
    assert Mul(Zero, Zero) == Zero;
    assert Add(Zero, c) == c;
  }

  /**
   * With re2, im2 caching the squares of re, im, the imperative update
   * computes exactly one application of the map.
   */
  lemma CachedSquaresStep(c: Complex, re: real, im: real, re2: real, im2: real)
    requires re2 == re * re && im2 == im * im
    ensures Norm2(Complex(re, im)) == re2 + im2
    ensures MandelFunc(c, Complex(re, im)) == Complex(re2 - im2 + c.re, 2.0 * re * im + c.im)
  {
    MandelFuncParts(c, Complex(re, im));
  }
}
