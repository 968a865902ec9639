/**
 * The first, static Mandelbrot page: every canvas pixel (i, j) is mapped to
 * c = (-1.5 + i * 2.5 / width, -1.25 + j * 2.5 / height), the orbit of 0
 * under z <- z*z + c is followed for at most 100 steps, and the pixel is
 * filled black when all 100 steps were taken and with the hue equal to the
 * step count otherwise.
 *
 * As written, the loop continues while the SQUARED norm is below 2, that
 * is while |z| < sqrt 2, where every other iterator of the site (and the
 * escape radius 2 of the Mandelbrot set) uses squared norm below 4. The
 * canvas is painted with the as-written count `CountAsWritten`; the count
 * under the intended test, `CanvasCount`, is kept beside it to show where
 * the two differ.
 */
module ComplexCanvas {
  import opened Complex
  import opened EscapeTime

  const MaxIterations: nat := 100
  const AsWrittenBound: real := 2.0
  const IntendedBound: real := 4.0

  const MinReal: real := -1.5
  const MaxReal: real := 1.0
  const MinImag: real := -1.25
  const MaxImag: real := 1.25

  /** The count `iterate_mandelfunc_under_0(c)` returns as written. */
  function CountAsWritten(c: Complex): nat
  {
    Count(Zero, c, MaxIterations, AsWrittenBound)
  }

  /** The count with the escape test the other iterators use. */
  function CanvasCount(c: Complex): nat
  {
    Count(Zero, c, MaxIterations, IntendedBound)
  }

  method IterateMandelfuncUnder0AsWritten(c: Complex) returns (iterations: nat)
    ensures iterations == CountAsWritten(c)
  {
    var z := Zero;
    iterations := 0;
    while iterations < MaxIterations && Norm2(z) < AsWrittenBound
      invariant iterations <= MaxIterations
      invariant CountFrom(z, c, iterations, MaxIterations, AsWrittenBound) == CountAsWritten(c)
      decreases MaxIterations - iterations
    {
      z := MandelFunc(c, z);
      iterations := iterations + 1;
    }
  }

  method IterateMandelfuncUnder0(c: Complex) returns (iterations: nat)
    ensures iterations == CanvasCount(c)
  {
    var z := Zero;
    iterations := 0;
    while iterations < MaxIterations && Norm2(z) < IntendedBound
      invariant iterations <= MaxIterations
      invariant CountFrom(z, c, iterations, MaxIterations, IntendedBound) == CanvasCount(c)
      decreases MaxIterations - iterations
    {
      z := MandelFunc(c, z);
      iterations := iterations + 1;
    }
  }

  /**
   * As written: the count lies in [1, 100], c = 0 reaches 100, and a
   * constant whose squared norm is at least 2 stops after one step.
   */
  lemma CountAsWrittenRange(c: Complex)
    ensures 1 <= CountAsWritten(c) <= MaxIterations
    ensures c == Zero ==> CountAsWritten(c) == MaxIterations
    ensures Norm2(c) >= AsWrittenBound ==> CountAsWritten(c) == 1
  {
    CountFromOriginInRange(c, MaxIterations, AsWrittenBound);
    if c == Zero {
      OriginReachesCap(MaxIterations, AsWrittenBound);
    }
    if Norm2(c) >= AsWrittenBound {
      ImmediateEscape(c, MaxIterations, AsWrittenBound);
    }
  }

  /** The same facts for the intended test, with the threshold at 4. */
  lemma CanvasCountRange(c: Complex)
    ensures 1 <= CanvasCount(c) <= MaxIterations
    ensures c == Zero ==> CanvasCount(c) == MaxIterations
    ensures Norm2(c) >= IntendedBound ==> CanvasCount(c) == 1
  {
    CountFromOriginInRange(c, MaxIterations, IntendedBound);
    if c == Zero {
      OriginReachesCap(MaxIterations, IntendedBound);
    }
    if Norm2(c) >= IntendedBound {
      ImmediateEscape(c, MaxIterations, IntendedBound);
    }
  }

  /** The imaginary unit. */
  const I: Complex := Complex(0.0, 1.0)

  /**
   * Under constant i, the points -1 + i and -i map to each other, and both
   * have squared norm below 4.
   */
  predicate OnCycleOfI(z: Complex)
  {
    z == Complex(-1.0, 1.0) || z == Complex(0.0, -1.0)
  }

  /** One step along the cycle stays on it, below squared norm 4. */
  lemma CycleOfIStep(z: Complex)
    requires OnCycleOfI(z)
    ensures Norm2(z) < IntendedBound
    ensures OnCycleOfI(MandelFunc(I, z))
  {
    MandelFuncParts(I, z);
    if z == Complex(-1.0, 1.0) {
      assert MandelFunc(I, z) == Complex(0.0, -1.0);
    } else {
      assert MandelFunc(I, z) == Complex(-1.0, 1.0);
    }
  }

  lemma {:induction false} CycleOfINeverEscapes(z: Complex, i: nat, cap: nat)
    requires OnCycleOfI(z) && i <= cap
    ensures CountFrom(z, I, i, cap, IntendedBound) == cap
    decreases cap - i
  {
    if i < cap {
      CycleOfIStep(z);
      var next := MandelFunc(I, z);
      CycleOfINeverEscapes(next, i + 1, cap);
      CountFromStep(z, I, i, cap, IntendedBound);
    } else {
      CountFromStops(z, I, i, cap, IntendedBound);
    }
  }

  /**
   * The orbit of 0 under c = i is 0, i, -1 + i, -i, -1 + i, ... and never
   * leaves the disc of radius 2, so i belongs to the Mandelbrot set and the
   * intended count reaches 100; the as-written test stops it at 2 because
   * |-1 + i|^2 = 2 is not below 2.
   */
  lemma ImaginaryUnitAsWritten()
    ensures CountAsWritten(I) == 2
  {
    StepFromZero(I);
    CountFromStep(Zero, I, 0, MaxIterations, AsWrittenBound);
    MandelFuncParts(I, I);
    CountFromStep(I, I, 1, MaxIterations, AsWrittenBound);
  }

  lemma ImaginaryUnitInSet()
    ensures CanvasCount(I) == MaxIterations
  {
    StepFromZero(I);
    CountFromStep(Zero, I, 0, MaxIterations, IntendedBound);
    MandelFuncParts(I, I);
    CountFromStep(I, I, 1, MaxIterations, IntendedBound);
    CycleOfINeverEscapes(Complex(-1.0, 1.0), 2, MaxIterations);
  }

  /** The constant sampled for pixel (i, j) of a width x height canvas. */
  function PixelPoint(i: nat, j: nat, width: nat, height: nat): (c: Complex)
    requires width > 0 && height > 0
    ensures i == 0 && j == 0 ==> c == Complex(MinReal, MinImag)
    ensures i == width && j == height ==> c == Complex(MaxReal, MaxImag)
  {
    Complex(MinReal + (i as real) * ((MaxReal - MinReal) / (width as real)),
            MinImag + (j as real) * ((MaxImag - MinImag) / (height as real)))
  }

  /** The fill style of a pixel: black, or an HSL colour whose hue is the count. */
  datatype FillStyle = BlackFill | Hsl(hue: nat)

  function StyleFor(iterations: nat): (s: FillStyle)
    ensures s == BlackFill <==> iterations == MaxIterations
    ensures s.Hsl? ==> s.hue == iterations
  {
    if iterations == MaxIterations then BlackFill else Hsl(iterations)
  }

  /**
   * The fill of pixel (i, j) is black exactly when the orbit of its
   * constant stays below squared norm 2, the as-written test, for all 100
   * steps.
   */
  lemma BlackIffBounded(c: Complex)
    ensures StyleFor(CountAsWritten(c)) == BlackFill
            <==> forall m :: 0 <= m < MaxIterations ==> Norm2(Orbit(Zero, c, m)) < AsWrittenBound
  {
    CountIsFirstEscape(Zero, c, MaxIterations, AsWrittenBound);
  }

  /**
   * Pixel (3, 9) of a 5 x 10 canvas samples c = i: the page fills it with
   * hue 2, while the intended test would leave it black.
   */
  lemma ImaginaryPixel()
    ensures PixelPoint(3, 9, 5, 10) == I
    ensures StyleFor(CountAsWritten(PixelPoint(3, 9, 5, 10))) == Hsl(2)
    ensures StyleFor(CanvasCount(PixelPoint(3, 9, 5, 10))) == BlackFill
  {
    ImaginaryUnitAsWritten();
    ImaginaryUnitInSet();
  }

  /**
   * The pixel loop: column i outer, row j inner, one fill per pixel. The
   * painted canvas is returned column by column.
   */
  method PaintCanvas(width: nat, height: nat) returns (canvas: seq<seq<FillStyle>>)
    ensures |canvas| == width
    ensures forall i :: 0 <= i < width ==> |canvas[i]| == height
    ensures forall i, j :: 0 <= i < width && 0 <= j < height ==>
              canvas[i][j] == StyleFor(CountAsWritten(PixelPoint(i, j, width, height)))
  {
    canvas := [];
    var i := 0;
    while i < width
      invariant i <= width && |canvas| == i
      invariant forall i' :: 0 <= i' < i ==> |canvas[i']| == height
      invariant forall i', j :: 0 <= i' < i && 0 <= j < height ==>
                  canvas[i'][j] == StyleFor(CountAsWritten(PixelPoint(i', j, width, height)))
    {
      var column: seq<FillStyle> := [];
      var j := 0;
      while j < height
        invariant j <= height && |column| == j
        invariant forall j' :: 0 <= j' < j ==>
                    column[j'] == StyleFor(CountAsWritten(PixelPoint(i, j', width, height)))
      {
        var iterations := IterateMandelfuncUnder0AsWritten(PixelPoint(i, j, width, height));
        column := column + [StyleFor(iterations)];
        j := j + 1;
      }
      canvas := canvas + [column];
      i := i + 1;
    }
  }
}
