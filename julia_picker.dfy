/**
 * The Julia constant picker: a canvas showing the square [-2, 2] x [-2, 2]
 * of the complex plane. A click at pixel offset (x, y) from the canvas's
 * top-left corner selects the constant at that spot, a red dot is drawn at
 * the canvas position of the current constant, and the Julia view is reset
 * to its initial rectangle.
 */
module JuliaPicker {
  import opened Complex
  import opened Zoom

  const JuliaMax: real := 2.0
  const JuliaMin: real := -JuliaMax
  const JuliaDelta: real := JuliaMax - JuliaMin

  /** A position on the picker canvas, in pixels from the top-left corner. */
  datatype Point = Point(x: real, y: real)

  /** Where the dot for constant k is drawn on a width x height canvas. */
  function DotFor(k: Complex, width: real, height: real): (p: Point)
    requires width > 0.0 && height > 0.0
    ensures k.re == JuliaMin ==> p.x == 0.0
    ensures k.im == JuliaMax ==> p.y == 0.0
    ensures k.re == JuliaMax ==> p.x == width
    ensures k.im == JuliaMin ==> p.y == height
  {
    Point((k.re - JuliaMin) / JuliaDelta * width, (JuliaMax - k.im) / JuliaDelta * height)
  }

  /** The constant selected by a click at pixel offset (x, y). */
  function ConstantAt(x: real, y: real, width: real, height: real): (k: Complex)
    requires width > 0.0 && height > 0.0
    ensures x == 0.0 && y == 0.0 ==> k == Complex(JuliaMin, JuliaMax)
    ensures x == width && y == height ==> k == Complex(JuliaMax, JuliaMin)
  {
    Complex(x / width * JuliaDelta - JuliaMax, JuliaMax - y / height * JuliaDelta)
  }

  /** The dot lands on the pixel that was clicked. */
  lemma DotLandsOnClick(x: real, y: real, width: real, height: real)
    requires width > 0.0 && height > 0.0
    ensures DotFor(ConstantAt(x, y, width, height), width, height) == Point(x, y)
  {
    var k := ConstantAt(x, y, width, height);
    assert (k.re - JuliaMin) / JuliaDelta == x / width;
    assert (JuliaMax - k.im) / JuliaDelta == y / height;
  }

  /** Clicking where the dot of k is drawn selects k again. */
  lemma ClickOnDotSelectsConstant(k: Complex, width: real, height: real)
    requires width > 0.0 && height > 0.0
    ensures var p := DotFor(k, width, height); ConstantAt(p.x, p.y, width, height) == k
  {
    var p := DotFor(k, width, height);
    assert p.x / width == (k.re - JuliaMin) / JuliaDelta;
    assert p.y / height == (JuliaMax - k.im) / JuliaDelta;
  }

  class Picker {
    var constant: Complex
    const bounds: Bounds

    /** The picker starts at constant 0 and keeps a reference to the given bounds. */
    constructor (bounds: Bounds)
      ensures constant == Zero && this.bounds == bounds
    {
      constant := Zero;
      this.bounds := bounds;
    }

    /**
     * A click at client position (clientX, clientY) on a canvas whose
     * top-left corner is at (rectLeft, rectTop): the constant under the
     * pointer is selected, so the dot is drawn where the click was, and the
     * Julia view returns to its initial rectangle.
     */
    method Click(clientX: real, clientY: real, rectLeft: real, rectTop: real,
                 width: real, height: real)
      requires width > 0.0 && height > 0.0
      modifies this, bounds
      ensures constant == ConstantAt(clientX - rectLeft, clientY - rectTop, width, height)
      ensures DotFor(constant, width, height) == Point(clientX - rectLeft, clientY - rectTop)
      ensures bounds.frames == 0 && bounds.Current() == JuliaView0
      ensures bounds.time == old(bounds.time)
    {
      var x := clientX - rectLeft;
      var y := clientY - rectTop;
      constant := ConstantAt(x, y, width, height);
      DotLandsOnClick(x, y, width, height);
      bounds.ResetToJulia();
    }
  }
}
