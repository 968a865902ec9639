/**
 * The zoom navigator of the Mandelbrot pages. A `Bounds` record holds the
 * visible rectangle of the complex plane together with a frame counter and
 * accumulated drawing time; a `ZoomListener` is attached to one canvas and
 * keeps the hover flag, the pointer position as fractions of the canvas
 * size, and the time of the last step. Two listeners may share one
 * `Bounds` (the two vanilla canvases do), which is why `bounds` is a
 * reference.
 *
 * Each zoom step shrinks both spans by the factor 0.99 about the point
 * under the pointer, which stays fixed. Times are parameters.
 */
module Zoom {

  const ZoomSpeed: real := 0.99
  const MinSpan: real := 0.00001

  /** The visible rectangle of the complex plane. */
  datatype View = View(realMin: real, realMax: real, imagMin: real, imagMax: real)
  {
    function RealSpan(): real
    {
      realMax - realMin
    }

    function ImagSpan(): real
    {
      imagMax - imagMin
    }

    /** The real part of the point at fraction fx of the view, from the left. */
    function RealAt(fx: real): real
    {
      realMin + fx * RealSpan()
    }

    /** The imaginary part of the point at fraction fy of the view, from the top. */
    function ImagAt(fy: real): real
    {
      imagMax - fy * ImagSpan()
    }
  }

  /**
   * The view after one zoom step with the pointer at fractions (fx, fy):
   * both spans shrink by 0.99 and the point under the pointer is fixed.
   */
  function ZoomView(v: View, fx: real, fy: real): (r: View)
    ensures r.RealSpan() == ZoomSpeed * v.RealSpan()
    ensures r.ImagSpan() == ZoomSpeed * v.ImagSpan()
    ensures r.RealAt(fx) == v.RealAt(fx)
    ensures r.ImagAt(fy) == v.ImagAt(fy)
  {
    var deltaReal := v.realMax - v.realMin;
    var deltaImag := v.imagMax - v.imagMin;
    var anchorRe := v.realMin + fx * deltaReal;
    var anchorIm := v.imagMax - fy * deltaImag;
    var nextDeltaReal := deltaReal * ZoomSpeed;
    var nextDeltaImag := deltaImag * ZoomSpeed;
    assert (1.0 - fx) * nextDeltaReal == nextDeltaReal - fx * nextDeltaReal;
    assert (1.0 - fy) * nextDeltaImag == nextDeltaImag - fy * nextDeltaImag;
    View(anchorRe - fx * nextDeltaReal, anchorRe + (1.0 - fx) * nextDeltaReal,
         anchorIm - (1.0 - fy) * nextDeltaImag, anchorIm + fy * nextDeltaImag)
  }

  function Power(x: real, n: nat): real
  {
    if n == 0 then 1.0 else x * Power(x, n - 1)
  }

  /** The view after n zoom steps with the pointer held still. */
  function ZoomSteps(v: View, fx: real, fy: real, n: nat): View
  {
    if n == 0 then v else ZoomView(ZoomSteps(v, fx, fy, n - 1), fx, fy)
  }

  /** While the pointer is held still, the point under it never moves. */
  lemma {:induction false} ZoomStepsAnchored(v: View, fx: real, fy: real, n: nat)
    ensures ZoomSteps(v, fx, fy, n).RealAt(fx) == v.RealAt(fx)
    ensures ZoomSteps(v, fx, fy, n).ImagAt(fy) == v.ImagAt(fy)
  {
    if n > 0 {
      ZoomStepsAnchored(v, fx, fy, n - 1);
      assert ZoomSteps(v, fx, fy, n) == ZoomView(ZoomSteps(v, fx, fy, n - 1), fx, fy);
    }
  }

  /** After n zoom steps both spans are 0.99^n times the original ones. */
  lemma ZoomStepsSpans(v: View, fx: real, fy: real, n: nat)
    ensures ZoomSteps(v, fx, fy, n).RealSpan() == Power(ZoomSpeed, n) * v.RealSpan()
    ensures ZoomSteps(v, fx, fy, n).ImagSpan() == Power(ZoomSpeed, n) * v.ImagSpan()
  {
    ZoomStepsRealSpan(v, fx, fy, n);
    ZoomStepsImagSpan(v, fx, fy, n);
  }

  lemma {:induction false} ZoomStepsRealSpan(v: View, fx: real, fy: real, n: nat)
    ensures ZoomSteps(v, fx, fy, n).RealSpan() == Power(ZoomSpeed, n) * v.RealSpan()
  {
    if n > 0 {
      ZoomStepsRealSpan(v, fx, fy, n - 1);
      var w := ZoomSteps(v, fx, fy, n - 1);
      ScaledTwice(ZoomView(w, fx, fy).RealSpan(), w.RealSpan(), v.RealSpan(), Power(ZoomSpeed, n - 1));
    }
  }

  lemma {:induction false} ZoomStepsImagSpan(v: View, fx: real, fy: real, n: nat)
    ensures ZoomSteps(v, fx, fy, n).ImagSpan() == Power(ZoomSpeed, n) * v.ImagSpan()
  {
    if n > 0 {
      ZoomStepsImagSpan(v, fx, fy, n - 1);
      var w := ZoomSteps(v, fx, fy, n - 1);
      ScaledTwice(ZoomView(w, fx, fy).ImagSpan(), w.ImagSpan(), v.ImagSpan(), Power(ZoomSpeed, n - 1));
    }
  }

  /** A span scaled by p and then by the zoom factor is scaled by their product. */
  lemma ScaledTwice(next: real, current: real, original: real, p: real)
    requires next == ZoomSpeed * current && current == p * original
    ensures next == (ZoomSpeed * p) * original
  {
  }

  /** A positive span stays positive and strictly shrinks with every step. */
  lemma {:induction false} ZoomStepsShrink(v: View, fx: real, fy: real, n: nat)
    requires v.RealSpan() > 0.0 && v.ImagSpan() > 0.0
    ensures 0.0 < ZoomSteps(v, fx, fy, n).RealSpan() <= v.RealSpan()
    ensures 0.0 < ZoomSteps(v, fx, fy, n).ImagSpan() <= v.ImagSpan()
    ensures n > 0 ==> ZoomSteps(v, fx, fy, n).RealSpan() < v.RealSpan()
    ensures n > 0 ==> ZoomSteps(v, fx, fy, n).ImagSpan() < v.ImagSpan()
  {
    if n > 0 {
      ZoomStepsShrink(v, fx, fy, n - 1);
    }
  }

  /** The Julia page's initial view, [-2, 2] x [-2, 2]. */
  const JuliaView0: View := View(-2.0, 2.0, -2.0, 2.0)

  class Bounds {
    var frames: nat
    var time: real
    var realMin: real
    var realMax: real
    var imagMin: real
    var imagMax: real

    /** `new_bounds()`: the initial view [-1.5, 1] x [-1.25, 1.25]. */
    constructor ()
      ensures frames == 0 && time == 0.0
      ensures realMin == -1.5 && realMax == 1.0
      ensures imagMin == -1.25 && imagMax == 1.25
    {
      frames := 0;
      time := 0.0;
      realMin := -1.5;
      realMax := 1.0;
      imagMin := -1.25;
      imagMax := 1.25;
    }

    /**
     * `julia_bounds0`: the Julia view [-2, 2] x [-2, 2]. That record has no
     * time field; here the time starts at 0.
     */
    constructor Julia()
      ensures frames == 0 && time == 0.0
      ensures Current() == JuliaView0
    {
      frames := 0;
      time := 0.0;
      realMin := -2.0;
      realMax := 2.0;
      imagMin := -2.0;
      imagMax := 2.0;
    }

    /**
     * `Object.assign(bounds, julia_bounds0)`: the frame counter and the
     * rectangle are reset; the time, absent from the copied record, is kept.
     */
    method ResetToJulia()
      modifies this
      ensures frames == 0 && Current() == JuliaView0
      ensures time == old(time)
    {
      frames := 0;
      realMin := -2.0;
      realMax := 2.0;
      imagMin := -2.0;
      imagMax := 2.0;
    }

    /** The rectangle currently shown. */
    function Current(): View
      reads this
    {
      View(realMin, realMax, imagMin, imagMax)
    }
  }

  class ZoomListener {
    const bounds: Bounds
    var isHovering: bool
    var mousePercentX: real
    var mousePercentY: real
    var lastTime: real

    /** `create_zoom_listener`: not hovering, pointer at the centre. */
    constructor (bounds: Bounds, now: real)
      ensures this.bounds == bounds
      ensures !isHovering && mousePercentX == 0.5 && mousePercentY == 0.5
      ensures lastTime == now
    {
      this.bounds := bounds;
      isHovering := false;
      mousePercentX := 0.5;
      mousePercentY := 0.5;
      lastTime := now;
    }

    /**
     * One zoom step at time `now`. Nothing changes unless the pointer is
     * over the canvas and the real span is at least 1e-5. Otherwise the
     * elapsed time is added, both spans shrink by 0.99, the point under
     * the pointer stays where it is, and one more frame is counted.
     */
    method Step(now: real) returns (zoomed: bool)
      modifies this, bounds
      ensures zoomed <==> old(isHovering) && old(bounds.Current().RealSpan()) >= MinSpan
      ensures isHovering == old(isHovering)
      ensures mousePercentX == old(mousePercentX) && mousePercentY == old(mousePercentY)
      ensures !zoomed ==> lastTime == old(lastTime) && unchanged(bounds)
      ensures zoomed ==> lastTime == now
      ensures zoomed ==> bounds.time == old(bounds.time) + (now - old(lastTime))
      ensures zoomed ==> bounds.frames == old(bounds.frames) + 1
      ensures zoomed ==> bounds.Current() == ZoomView(old(bounds.Current()), mousePercentX, mousePercentY)
    {
      if !isHovering || bounds.realMax - bounds.realMin < MinSpan {
        return false;
      }
      bounds.time := bounds.time + (now - lastTime);
      lastTime := now;

      var deltaReal := bounds.realMax - bounds.realMin;
      var deltaImag := bounds.imagMax - bounds.imagMin;
      var fx, fy := mousePercentX, mousePercentY;
      var anchorRe := bounds.realMin + fx * deltaReal;
      var anchorIm := bounds.imagMax - fy * deltaImag;
      var nextDeltaReal := deltaReal * ZoomSpeed;
      var nextDeltaImag := deltaImag * ZoomSpeed;

      bounds.realMin := anchorRe - fx * nextDeltaReal;
      bounds.realMax := anchorRe + (1.0 - fx) * nextDeltaReal;
      bounds.imagMin := anchorIm - (1.0 - fy) * nextDeltaImag;
      bounds.imagMax := anchorIm + fy * nextDeltaImag;
      bounds.frames := bounds.frames + 1;
      zoomed := true;
    }

    /** `mouseenter`: record the time, start hovering, and take one step. */
    method MouseEnter(enterTime: real, stepTime: real) returns (zoomed: bool)
      modifies this, bounds
      ensures isHovering
      ensures zoomed <==> old(bounds.Current().RealSpan()) >= MinSpan
      ensures zoomed ==> bounds.time == old(bounds.time) + (stepTime - enterTime)
      ensures !zoomed ==> lastTime == enterTime && unchanged(bounds)
    {
      lastTime := enterTime;
      isHovering := true;
      zoomed := Step(stepTime);
    }

    /** `mouseleave`: stop hovering; the next step changes nothing. */
    method MouseLeave()
      modifies this
      ensures !isHovering
      ensures mousePercentX == old(mousePercentX) && mousePercentY == old(mousePercentY)
      ensures lastTime == old(lastTime)
    {
      isHovering := false;
    }

    /**
     * `mousemove`: the pointer position relative to the canvas's top-left
     * corner, as fractions of the canvas width and height.
     */
    method MouseMove(clientX: real, clientY: real, rectLeft: real, rectTop: real,
                     width: real, height: real)
      requires width > 0.0 && height > 0.0
      modifies this
      ensures mousePercentX * width == clientX - rectLeft
      ensures mousePercentY * height == clientY - rectTop
      ensures isHovering == old(isHovering) && lastTime == old(lastTime)
    {
      mousePercentX := (clientX - rectLeft) / width;
      mousePercentY := (clientY - rectTop) / height;
    }
  }
}
