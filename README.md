# Fractals, WebGL helpers and small games — a Dafny model

This project models the computational core of a personal site made of
several interactive pages. The pages are:

- the Mandelbrot and Julia pages;
- a first static Mandelbrot canvas and a first WebGL Mandelbrot shader;
- a WebGL helper library for matrices, vectors and sphere meshes;
- a 3-D geometry page;
- Conway's Game of Life;
- Pong.

Every number is an exact Dafny `real`. The browser supplies some values
that the model takes as parameters of the operations that use them:

- `Math.random()` draws;
- `performance.now()` and `Date.now()` readings;
- `Math.sin`, `Math.cos` and `Math.PI`. Sine and cosine become
  `real -> real` function parameters. A lemma that needs a property of them
  states it as a precondition, for example sin² + cos² = 1.

Modules, one per concern:

- `Complex` holds complex values as (re, im) pairs: squared norm, product,
  sum, and the quadratic map z ↦ z² + c.
- `EscapeTime` holds one reference definition of the escape-time count:
  start at z₀, apply z ↦ z² + k while fewer than `cap` steps were taken and
  the squared norm is below `bound`, and return the number of steps. It also
  proves that this count is the first escaping step of the orbit. Every
  iterator loop in the site is proved equal to an instance of it.
- `MandelbrotIterators` models the functional and imperative CPU iterators:
  cap 50, bound 4, starting at z₀ = 0.
- `Shaders` models the GLSL `iterate` bodies of the Mandelbrot and Julia
  shaders: cap 10000, starting at the pixel's own value. It also models the
  fragment → point mapping and the black-or-palette colour choice.
- `WebglMandelbrot` models the older shader. Its `for i <= 20` loop records
  the loop index after each update.
- `ComplexCanvas` models the static canvas, which uses squared norm < 2 and
  a cap of 100. The pixel → point map and the fill colour are included. The
  canvas is painted with the count as written; the count with bound 4 is
  kept beside it as the corrected definition.
- `Zoom` models the bounds record and the per-canvas zoom listener, whose
  step shrinks the view by 0.99 about the point under the pointer.
- `JuliaPicker` models the click → constant and constant → dot maps, and
  the reset of the Julia view.
- `VanillaCanvas` models the colour lookup table and the RGBA byte buffer
  fill of `color_canvas`.
- `Matrices` and `Vectors` model the flat-array 3×3 and 4×4 matrix kernel
  and the 3-vector helpers. These are shared by both copies of the helper
  library.
- `Sphere` models the UV-sphere vertex and index generators.
- `Geometry` models the model matrix and the six slider handlers.
- `GameOfLife` models the board array, the kernel rule, the index buffer,
  and the pause/run/step state machine.
- `Pong` models the game state as a class: movement, collisions, scoring,
  serve, key handlers and the frame loop.

## Model

| member | source | states |
|---|---|---|
| Complex.Mul | scripts/complex.js:9-13 | `multiply_complex`: (a·c − b·d, a·d + b·c) |
| Complex.Add | scripts/complex.js:15-17 | `add_complex`: the componentwise sum |
| Complex.MandelFunc | scripts/complex.js:19-24 | the closure built by `generate_mandelbrot_set_function(c)`: z ↦ z·z + c, with c passed explicitly |
| Complex.Norm2 | static/scripts/mandelbrot.js:135-137 | the squared norm is never negative |
| Complex.MulCommutes | scripts/complex.js:9-13 | complex multiplication is commutative |
| Complex.MandelFuncParts | scripts/complex.js:19-24 | the closure `generate_mandelbrot_set_function(c)` maps z to (re² − im² + c.re, 2·re·im + c.im), the form the scalar iterators use |
| Complex.StepFromZero | static/scripts/mandelbrot.js:149-154 | one application of the map to 0 gives the constant c |
| Complex.CachedSquaresStep | static/scripts/mandelbrot.js:178-183 | with re2 and im2 holding re² and im², the scalar update is exactly one application of the map, and re2 + im2 is the squared norm |
| EscapeTime.Orbit | static/scripts/mandelbrot.js:159-164 | the point reached from z₀ after n applications of z ↦ z² + k, the orbit the escape tests inspect |
| EscapeTime.CountFrom | static/scripts/mandelbrot.js:162-165 | the `while` loop from step i: step while fewer than `cap` steps were taken and the squared norm is below the bound, then return the step count |
| EscapeTime.Count | static/scripts/mandelbrot.js:159-167 | the loop from step 0 at z₀: the one reference count every iterator of the site is proved equal to |
| EscapeTime.CountFromIsFirstEscape | static/scripts/mandelbrot.js:162-165 | the loop count from step i lies in [i, cap]; every orbit point before it is below the bound; when it stops before the cap, the orbit point at that step is at or above the bound |
| EscapeTime.CountIsFirstEscape | static/scripts/mandelbrot.js:162-167 | the count is the first escaping step of the orbit, or the cap if there is none |
| EscapeTime.CountFromOriginInRange | static/scripts/mandelbrot.js:159-167 | starting from z₀ = 0 with a positive bound, the count lies in [1, cap] |
| EscapeTime.OriginOrbitIsZero | static/scripts/mandelbrot.js:159-165 | the orbit of 0 under constant 0 is 0 at every step |
| EscapeTime.OriginReachesCap | static/scripts/mandelbrot.js:162-167 | for c = 0 the count equals the cap |
| EscapeTime.ImmediateEscape | static/scripts/mandelbrot.js:162-167 | from z₀ = 0, a constant whose squared norm is at least the bound stops after exactly one step |
| EscapeTime.CountFromShift | static/scripts/mandelbrot.js:322-339 | counting one step later against a cap one higher adds exactly 1 |
| EscapeTime.StartAtConstant | static/scripts/mandelbrot.js:322-339 | an orbit started at z₀ = c counts one step fewer than the z₀ = 0 orbit under a cap one higher |
| MandelbrotIterators.VanillaCount | static/scripts/mandelbrot.js:156-168 | the count both vanilla iterators return: from 0 under c, cap 50, squared norm below 4 |
| MandelbrotIterators.FunctionalIterate | static/scripts/mandelbrot.js:156-168 | the object-based loop returns the reference escape count (z₀ = 0, cap 50, squared norm < 4) |
| MandelbrotIterators.ImperativeIterate | static/scripts/mandelbrot.js:171-188 | the scalar loop with cached squares returns the same reference count |
| MandelbrotIterators.CompareIterators | static/scripts/mandelbrot.js:192-193 | the two iterators return equal counts for every c, so either can serve as `config.iterator` |
| MandelbrotIterators.VanillaCountRange | static/scripts/mandelbrot.js:162-167 | the count lies in [1, 50]; c = 0 gives 50; squared norm ≥ 4 gives exactly 1 |
| Shaders.MandelbrotCount | static/scripts/mandelbrot.js:322-339 | the Mandelbrot shader's `iterate`: from z₀ = c under constant c, cap 10000, squared norm below 4 |
| Shaders.JuliaCount | static/scripts/mandelbrot.js:559-576 | the Julia shader's `iterate`: from the pixel's z₀ under the uniform constant, cap 10000, squared norm below 4 |
| Shaders.MandelbrotIterate | static/scripts/mandelbrot.js:322-339 | the Mandelbrot shader loop returns the reference count with z₀ = c, constant c and cap 10000 |
| Shaders.JuliaIterate | static/scripts/mandelbrot.js:559-576 | the Julia shader loop returns the reference count from the pixel value under the uniform constant |
| Shaders.MandelbrotIsJuliaAtConstant | static/scripts/mandelbrot.js:322-339 | the Mandelbrot shader at c equals the Julia shader started at c with constant c |
| Shaders.ShaderSkipsFirstStep | static/scripts/mandelbrot.js:322-339 | the shader count is one less than the z₀ = 0 count with cap 10001 |
| Shaders.MandelbrotCountRange | static/scripts/mandelbrot.js:322-339 | the count is at most 10000; it is 0 when the squared norm of c is ≥ 4; it is 10000 for c = 0 |
| Shaders.FragmentPoint | static/scripts/mandelbrot.js:268-272 | fragment (0, 0) maps to `complex_min`, and fragment (w, h) maps to `complex_max` |
| Shaders.FragmentColour | static/scripts/mandelbrot.js:274-281 | black iff the count equals the cap; otherwise the colour is taken at ratio count/cap, which lies in [0, 1) |
| Shaders.BlackIffBounded | static/scripts/mandelbrot.js:271-281 | a fragment is black iff the orbit of its point stays below squared norm 4 for all 10000 steps |
| WebglMandelbrot.IterateFrom | scripts/mandelbrot_webgl.js:34-43 | the `for` loop from pass i: stop after pass 20 or when the squared norm exceeds 4, otherwise record i and take one step |
| WebglMandelbrot.WebglCount | scripts/mandelbrot_webgl.js:28-46 | the older shader's `iterate(c)`: the loop from pass 0 at z = c with 0 recorded |
| WebglMandelbrot.Iterate | scripts/mandelbrot_webgl.js:28-46 | the `for i <= 20` loop with break and `iterations = i` returns the count its reference definition gives |
| WebglMandelbrot.FirstEscapeFrom | scripts/mandelbrot_webgl.js:34-43 | from pass i, a first escape at step k yields k − 1 (0 when k = 0) |
| WebglMandelbrot.NoEscapeFrom | scripts/mandelbrot_webgl.js:34-45 | from pass i, if no step up to 20 escapes the result is 20 |
| WebglMandelbrot.WebglCountIsFirstEscape | scripts/mandelbrot_webgl.js:34-45 | a first escape at step k ≥ 1 returns k − 1; an escape at step 0 returns 0; no escape in steps 0..20 returns 20 |
| WebglMandelbrot.FirstEscapeExists | scripts/mandelbrot_webgl.js:34-37 | if some step below hi escapes, there is a first escaping step |
| WebglMandelbrot.WebglCountRange | scripts/mandelbrot_webgl.js:26-46 | the result lies in [0, 20], and it is 20 iff the escape test never fires for i = 0..20 |
| WebglMandelbrot.EscapesImmediately | scripts/mandelbrot_webgl.js:29-37 | real² + imag² > 4 breaks at i = 0 and returns 0 |
| WebglMandelbrot.OriginBounded | scripts/mandelbrot_webgl.js:34-43 | the orbit of 0 never exceeds squared norm 4 |
| WebglMandelbrot.OriginReachesMax | scripts/mandelbrot_webgl.js:34-45 | for c = 0 the result is 20 |
| WebglMandelbrot.FragmentColourAt | scripts/mandelbrot_webgl.js:48-67 | the fragment at (x, y) is sampled at (x/w·Δr + min.x, y/h·Δi + min.y), and it is black iff the escape test never fires there |
| ComplexCanvas.IterateMandelfuncUnder0AsWritten | scripts/complex.js:28-41 | the loop as written (squared norm < 2, cap 100) returns the reference count with bound 2 |
| ComplexCanvas.IterateMandelfuncUnder0 | scripts/complex.js:28-41 | the same loop with the escape test squared norm < 4 returns the reference count with bound 4 |
| ComplexCanvas.CountAsWrittenRange | scripts/complex.js:26-41 | as written, the count lies in [1, 100]; c = 0 gives 100; squared norm of c ≥ 2 gives exactly 1 |
| ComplexCanvas.CanvasCountRange | scripts/complex.js:26-41 | with the bound at 4, the count lies in [1, 100]; c = 0 gives 100; squared norm of c ≥ 4 gives exactly 1 |
| ComplexCanvas.CycleOfINeverEscapes | scripts/complex.js:35-38 | under c = i, the 2-cycle −1 + i ↔ −i never reaches squared norm 4, so the count runs to 100 |
| ComplexCanvas.ImaginaryUnitAsWritten | scripts/complex.js:35 | as written, c = i stops at count 2, because ‖−1 + i‖² = 2 is not below 2 |
| ComplexCanvas.ImaginaryUnitInSet | scripts/complex.js:35 | with bound 4, c = i reaches the cap of 100 |
| ComplexCanvas.PixelPoint | scripts/complex.js:57-71 | pixel (0, 0) maps to (−1.5, −1.25), and pixel (W, H) maps to (1.0, 1.25) |
| ComplexCanvas.StyleFor | scripts/complex.js:74 | the fill is black iff the count equals 100; otherwise it is the HSL colour whose hue is the count |
| ComplexCanvas.BlackIffBounded | scripts/complex.js:72-74 | a pixel is black iff the orbit of its constant stays below squared norm 2, the bound as written, for all 100 steps |
| ComplexCanvas.PaintCanvas | scripts/complex.js:69-78 | the nested pixel loop fills every pixel (i, j) with the style for the as-written count at its point |
| ComplexCanvas.ImaginaryPixel | scripts/complex.js:69-74 | pixel (3, 9) of a 5 × 10 canvas is the point i. The as-written count paints it hsl(2); with bound 4 it would be black |
| ComplexCanvas.CycleOfIStep | scripts/complex.js:35-38 | under c = i, a point of the cycle −1 + i ↔ −i has squared norm below 4 and maps to the other point of the cycle |
| Zoom.View.RealAt | static/scripts/mandelbrot.js:71 | the real part under the pointer: real_min + fx·(real_max − real_min) |
| Zoom.View.ImagAt | static/scripts/mandelbrot.js:72 | the imaginary part under the pointer: imag_max − fy·(imag_max − imag_min) |
| Zoom.Bounds.Current | static/scripts/mandelbrot.js:29-38 | the rectangle held by the bounds record's four range fields |
| Zoom.ZoomView | static/scripts/mandelbrot.js:67-80 | both spans shrink to exactly 0.99 times their old values, and the point under the pointer (`real_min + fx·Δr`, `imag_max − fy·Δi`) is unchanged |
| Zoom.ZoomStepsAnchored | static/scripts/mandelbrot.js:71-80 | over any number of steps with the pointer held still, the point under it never moves |
| Zoom.ZoomStepsSpans | static/scripts/mandelbrot.js:74-80 | after n steps both spans are 0.99ⁿ times the originals |
| Zoom.ZoomStepsRealSpan | static/scripts/mandelbrot.js:74-78 | after n steps the real span is 0.99ⁿ times the original |
| Zoom.ZoomStepsImagSpan | static/scripts/mandelbrot.js:75-80 | after n steps the imaginary span is 0.99ⁿ times the original |
| Zoom.ZoomStepsShrink | static/scripts/mandelbrot.js:74-80 | positive spans stay positive and never grow. After at least one step, both the real and the imaginary span are strictly smaller |
| Zoom.Bounds.constructor | static/scripts/mandelbrot.js:29-38 | `new_bounds()`: view [−1.5, 1] × [−1.25, 1.25], frame count 0, time 0 |
| Zoom.Bounds.Julia | static/scripts/mandelbrot.js:517-525 | the Julia bounds start at [−2, 2] × [−2, 2] with frame count 0 |
| Zoom.Bounds.ResetToJulia | static/scripts/mandelbrot.js:538 | `Object.assign(julia_bounds, julia_bounds0)` resets the frame count and the view and keeps the time |
| Zoom.ZoomListener.constructor | static/scripts/mandelbrot.js:41-45 | a new listener is not hovering, has its pointer at the centre, and starts its clock now |
| Zoom.ZoomListener.Step | static/scripts/mandelbrot.js:58-85 | the step proceeds iff hovering and `real_max − real_min` ≥ 1e-5, and otherwise nothing changes. When it proceeds: the time is accumulated, the frame count rises by exactly 1, and the view becomes the zoomed view |
| Zoom.ZoomListener.MouseEnter | static/scripts/mandelbrot.js:47-51 | entering sets hovering and the clock, then takes one step, which proceeds iff the span is ≥ 1e-5 |
| Zoom.ZoomListener.MouseLeave | static/scripts/mandelbrot.js:53-55 | leaving clears hovering and leaves the pointer and the clock as they were |
| Zoom.ZoomListener.MouseMove | static/scripts/mandelbrot.js:87-91 | the pointer fractions times the canvas size give the offset from the canvas corner |
| JuliaPicker.DotFor | static/scripts/mandelbrot.js:501-502 | the corners of [−2, 2]² land on the canvas edges: re −2 → x = 0, re 2 → x = w, im 2 → y = 0, im −2 → y = h |
| JuliaPicker.ConstantAt | static/scripts/mandelbrot.js:533-534 | a click at (0, 0) selects −2 + 2i, and a click at (w, h) selects 2 − 2i |
| JuliaPicker.DotLandsOnClick | static/scripts/mandelbrot.js:501-502 | for every click, the dot for the selected constant is drawn at the clicked pixel |
| JuliaPicker.ClickOnDotSelectsConstant | static/scripts/mandelbrot.js:533-534 | clicking on the dot of k selects k again, so the two maps are mutual inverses |
| JuliaPicker.Picker.constructor | static/scripts/mandelbrot.js:460-461 | the Julia constant starts at 0 |
| JuliaPicker.Picker.Click | static/scripts/mandelbrot.js:527-541 | a click selects the constant under the pointer, puts the dot where the click was, and resets the Julia view to [−2, 2]² with frame count 0 |
| VanillaCanvas.Channel | static/scripts/mandelbrot.js:111-119 | channel k of the cosine palette at t: 0.1 + 0.75·cos(6.28·(40·t + d)), with d = 0.1, 0.2, 0.05 |
| VanillaCanvas.ByteIndex | static/scripts/mandelbrot.js:208 | the byte offset 4·(j·width + i) of pixel (i, j) |
| VanillaCanvas.PixelRe | static/scripts/mandelbrot.js:199-215 | the value `c_re` holds at column i, over exact reals: real_min + i·Δr/w |
| VanillaCanvas.PixelIm | static/scripts/mandelbrot.js:200-217 | the value `c_im` holds at row j, over exact reals: imag_min + (h − j)·Δi/h, since rows run from j = h down |
| VanillaCanvas.ToUint8 | static/scripts/mandelbrot.js:121-123 | a `Uint8Array` store keeps a value in [0, 256), and keeps the integer part of a value already in range |
| VanillaCanvas.PaletteByte | static/scripts/mandelbrot.js:109-123 | a table byte derived from the colour function is a byte |
| VanillaCanvas.PaletteEntry | static/scripts/mandelbrot.js:107-128 | every table entry is a byte, and entries 150..152 (count 50) are 0 |
| VanillaCanvas.PaletteEntryAt | static/scripts/mandelbrot.js:121-123 | entry 3i + k is channel k of count i |
| VanillaCanvas.BuildPalette | static/scripts/mandelbrot.js:107-128 | the table loop builds a fresh table of 3·51 entries, each equal to its reference entry |
| VanillaCanvas.WriteEntry | static/scripts/mandelbrot.js:117-123 | one pass writes the three bytes of count i and changes no other entry |
| VanillaCanvas.PaletteIndexInRange | static/scripts/mandelbrot.js:209-212 | `3·iterations + 2` is always inside the table, and count 50 selects the black triple |
| VanillaCanvas.PixelInsideBuffer | static/scripts/mandelbrot.js:208 | the four bytes of pixel (i, j), for j < height, lie inside the 4·w·h buffer |
| VanillaCanvas.RowHeightOutsideBuffer | static/scripts/mandelbrot.js:203-208 | the first pass, j = height, only addresses bytes at or beyond 4·w·h |
| VanillaCanvas.Store | static/scripts/mandelbrot.js:210-213 | a typed-array store writes in range and is dropped out of range |
| VanillaCanvas.WritePixel | static/scripts/mandelbrot.js:208-213 | when the pixel lies in the buffer, its four bytes become the palette triple and alpha 255; no other byte changes |
| VanillaCanvas.OtherPixelsKept | static/scripts/mandelbrot.js:203-213 | writing pixel (i, j) keeps every pixel already completed: later rows, and the earlier columns of row j |
| VanillaCanvas.PixelJustWritten | static/scripts/mandelbrot.js:208-213 | the four stored bytes make pixel (i, j) hold the triple of its own count |
| VanillaCanvas.ColorPixel | static/scripts/mandelbrot.js:206-213 | the loop body keeps the completed pixels and completes pixel (i, j) |
| VanillaCanvas.ColorRow | static/scripts/mandelbrot.js:204-216 | a pass of the inner loop completes row j when it is inside the buffer, and keeps the rows below it |
| VanillaCanvas.ColorCanvas | static/scripts/mandelbrot.js:196-218 | after the fill, every pixel (i, j) with i < w and j < h holds the palette triple for the count at (`real_min + i·Δr/w`, `imag_min + (h − j)·Δi/h`), followed by alpha 255 |
| Matrices.Identity3 | static/scripts/webgl_utils.js:168-174 | `identity_matrix3d` |
| Matrices.Translation3 | static/scripts/webgl_utils.js:186-192 | `translation_matrix3d` of the newer copy: the offset in entries 6 and 7 |
| Matrices.Scaling3 | static/scripts/webgl_utils.js:194-200 | `scaling_matrix3d`: sx and sy on the diagonal |
| Matrices.Mul3 | static/scripts/webgl_utils.js:102-140 | `multiply_matrix3d`, written out entry by entry |
| Matrices.Identity4 | static/scripts/webgl_utils.js:202-209 | `identity_matrix4d` |
| Matrices.Translation4 | static/scripts/webgl_utils.js:211-218 | `translation_matrix4d`: the offset in entries 12, 13 and 14 |
| Matrices.Scaling4 | static/scripts/webgl_utils.js:220-227 | `scaling_matrix4d`: sx, sy and sz on the diagonal |
| Matrices.PartialSum4 | static/scripts/webgl_utils.js:149-151 | the value entry 4i + j of `multiply_matrix4d` holds after the first `count` passes of the k loop |
| Matrices.Mul4 | static/scripts/webgl_utils.js:144-156 | the product `multiply_matrix4d` computes: entry 4i + j is Σₖ left[4k + j]·right[4i + k] |
| Matrices.Mul3Entry | static/scripts/webgl_utils.js:102-140 | each entry (i, j) of the written-out 3×3 product equals Σₖ right(i, k)·left(k, j) |
| Matrices.Mul3FollowsConvention | scripts/webgl_utils.js:77-115 | every entry of the 3×3 product follows c_ij = Σₖ b_ik·a_kj |
| Matrices.Identity3IsNeutral | static/scripts/webgl_utils.js:168-174 | `identity_matrix3d()` is a two-sided identity for `multiply_matrix3d` |
| Matrices.Translation3Composes | static/scripts/webgl_utils.js:186-192 | the product of two 2-D translations is the translation by the sum |
| Matrices.Scaling3Composes | static/scripts/webgl_utils.js:194-200 | the product of two 2-D scalings is the scaling by the product |
| Matrices.Translation3AsWritten | scripts/webgl_utils.js:151-159 | with no global `angle` the call fails with a ReferenceError; with one, it returns the translation matrix |
| Matrices.Translation3AsWrittenFails | scripts/webgl_utils.js:151-153 | with no global `angle` the older copy fails. With any value of `angle` it returns the newer copy's matrix |
| Matrices.MultiplyMatrix4d | static/scripts/webgl_utils.js:142-156 | the triple accumulation loop returns a fresh 16-array with `res[4i+j] = Σₖ left[4k+j]·right[4i+k]` |
| Matrices.PartialSum4Complete | scripts/webgl_utils.js:124-126 | accumulating over k = 0..3 gives the full convention sum |
| Matrices.Mul4At | scripts/webgl_utils.js:117-131 | entry (i, j) of the product is the convention sum Σₖ left(k, j)·right(i, k) |
| Matrices.Identity4IsNeutral | scripts/webgl_utils.js:169-176 | `identity_matrix4d()` is a two-sided identity for `multiply_matrix4d` |
| Matrices.Translation4Composes | static/scripts/webgl_utils.js:211-218 | the product of two 3-D translations is the translation by the sum |
| Matrices.Scaling4Composes | static/scripts/webgl_utils.js:220-227 | the product of two 3-D scalings is the scaling by the componentwise product |
| Matrices.MatVec4AsWritten | static/scripts/webgl_utils.js:158-166 | `matrix_vector_multiply4d` returns four numbers |
| Matrices.MatVec4IdentityAsWritten | static/scripts/webgl_utils.js:159-166 | with the identity it returns [v0, v1, v2, 1], because of the implicit w = 1 |
| Matrices.MatVec4AsWrittenIgnoresTranslation | static/scripts/webgl_utils.js:159-166 | read row by row, a translation matrix leaves a point's x, y and z unchanged and puts v·d + 1 in the fourth entry |
| Matrices.MatVec4 | static/scripts/webgl_utils.js:159-166 | the column-major product returns four numbers |
| Matrices.MatVec4Identity | static/scripts/webgl_utils.js:159-166 | the column-major product with the identity gives [v0, v1, v2, 1] |
| Matrices.MatVec4Translates | static/scripts/webgl_utils.js:211-218 | the column-major product moves a point by the translation's offset |
| Matrices.MatVec4OfProduct | static/scripts/webgl_utils.js:142-166 | applying `multiply_matrix4d(a, b)` to a point is applying b, then a, whenever b keeps w = 1 |
| Vectors.Add | static/scripts/webgl_utils.js:283-285 | `add_vectors`, component by component |
| Vectors.Sub | static/scripts/webgl_utils.js:287-289 | `subtract_vectors`, component by component |
| Vectors.Cross | static/scripts/webgl_utils.js:295-301 | `cross_product`, component by component |
| Vectors.Dot | static/scripts/webgl_utils.js:303-305 | `dot_product`: the sum of the componentwise products |
| Vectors.SubThenAdd | static/scripts/webgl_utils.js:283-289 | `add_vectors(subtract_vectors(v, u), u) = v`, and conversely |
| Vectors.CrossIsOrthogonal | scripts/webgl_utils.js:254-264 | the cross product is orthogonal to both operands under `dot_product` |
| Vectors.CrossAntiCommutes | static/scripts/webgl_utils.js:295-301 | swapping the operands negates the cross product |
| Vectors.DotCommutes | static/scripts/webgl_utils.js:303-305 | the dot product is symmetric |
| Sphere.Quad | static/scripts/webgl_utils.js:490-504 | the triangles one inner pass pushes for quad (i, j): the first skipped at the top band, the second at the bottom band |
| Sphere.BandIndices | static/scripts/webgl_utils.js:493-505 | the indices the inner loop pushes for the first `count` quads of band i |
| Sphere.BandsIndices | static/scripts/webgl_utils.js:488-506 | the indices the outer loop pushes for the first `bands` bands |
| Sphere.SphereIndices | static/scripts/webgl_utils.js:484-509 | the whole list `generate_sphere_indices` returns |
| Sphere.AngleStep | static/scripts/webgl_utils.js:442-443 | the angle steps π/Z and 2π/A (0 with no slices) |
| Sphere.RingVertices | static/scripts/webgl_utils.js:449-470 | the numbers the inner loop pushes for the first `count` vertices of ring i |
| Sphere.RingsVertices | static/scripts/webgl_utils.js:446-472 | the numbers the outer loop pushes for the first `rings` rings |
| Sphere.GenerateSphereIndices | static/scripts/webgl_utils.js:484-509 | the nested push loop returns exactly the band-by-band list of quad triangles, skipping the first triangle on band 0 and the second on the last band |
| Sphere.PushBand | scripts/webgl_utils.js:384-399 | one pass of the outer loop appends band i's triangles |
| Sphere.BandLength | static/scripts/webgl_utils.js:493-504 | a band contributes 3 indices per quad at a pole and 6 per quad elsewhere |
| Sphere.BandsLength | static/scripts/webgl_utils.js:488-506 | the first b bands hold 6·A·b − 3·A indices, minus another 3·A once the last band is included |
| Sphere.IndexCount | scripts/webgl_utils.js:378-403 | with Z ≥ 1 there are exactly 6·A·(Z − 1) indices |
| Sphere.QuadBelow | static/scripts/webgl_utils.js:490-504 | every index of a quad is below (Z + 1)(A + 1) |
| Sphere.IndicesInRange | scripts/webgl_utils.js:378-403 | every index names one of the (Z + 1)(A + 1) vertices |
| Sphere.Vertex | static/scripts/webgl_utils.js:450-467 | each vertex contributes six numbers, its position and its normal |
| Sphere.GenerateSphereVertices | static/scripts/webgl_utils.js:438-475 | the loops, which accumulate both angles by repeated addition, produce ring after ring of vertices at angles i·π/Z and j·2π/A |
| Sphere.PushRing | scripts/webgl_utils.js:343-364 | one pass of the outer loop appends the A + 1 vertices of ring i |
| Sphere.RingsLength | scripts/webgl_utils.js:341-366 | r rings hold r·6·(A + 1) numbers |
| Sphere.VertexArrayLength | scripts/webgl_utils.js:332-369 | the vertex array holds 6·(Z + 1)(A + 1) numbers, six per vertex that an index can name |
| Sphere.VertexOnSphere | static/scripts/webgl_utils.js:450-467 | when sin² + cos² = 1, every vertex lies on the sphere of the given radius and its normal has length 1 |
| Geometry.ModelMatrix | scripts/geometry.js:63-68 | `generate_model_matrix`: the translation matrix times the scaling matrix, in the library's product |
| Geometry.ModelEntry | scripts/geometry.js:63-68 | each entry of the translation × scaling product matches the written-out model matrix |
| Geometry.ModelMatrixIsScaleThenTranslate | scripts/geometry.js:63-68 | `generate_model_matrix(s, t)` is [sx,0,0,0, 0,sy,0,0, 0,0,sz,0, tx,ty,tz,1] |
| Geometry.UnitScaleIsTranslation | scripts/geometry.js:63-68 | with scale (1, 1, 1) the model matrix is `translation_matrix4d(t)` |
| Geometry.OriginIsScaling | scripts/geometry.js:63-68 | at position (0, 0, 0) the model matrix is `scaling_matrix4d(s)` |
| Geometry.ModelMovesPoint | scripts/geometry.js:63-69 | applied to a point, the model matrix scales each coordinate and then adds the position |
| Geometry.Scene.constructor | scripts/geometry.js:12-13 | the sphere starts at the origin with unit scale, and its model matrix is the identity |
| Geometry.Scene.SetPosition | scripts/geometry.js:140-166 | a position slider replaces exactly one component of the position and rebuilds the model from both arrays; the scale is unchanged |
| Geometry.Scene.SetScale | scripts/geometry.js:168-196 | a scale slider replaces exactly one component of the scale and rebuilds the model from both arrays; the position is unchanged |
| GameOfLife.KernelSum | scripts/game_of_life.js:92-103 | the red channel of the shader's kernel-weighted sum, with the kernel of :43-47 (9 at the centre, 1 elsewhere) |
| GameOfLife.NextAlive | scripts/game_of_life.js:105 | the cell is alive next iff the sum is 3, 11 or 12 |
| GameOfLife.GliderBoard | scripts/game_of_life.js:35-41 | the board after the five `set_board(.., 255)` writes of `glider(x, y)` |
| GameOfLife.DrawValue | scripts/game_of_life.js:299-304 | 255 when the draw is below the threshold, 0 otherwise |
| GameOfLife.RandomizedPrefix | scripts/game_of_life.js:297-305 | the board after the first n passes of the randomize loop |
| GameOfLife.ClickedCell | scripts/game_of_life.js:312-319 | the clicked cell: floor of the offsets over 8 pixels per cell, rows counted from the bottom |
| GameOfLife.CornerOffset | scripts/game_of_life.js:190-195 | the corner offsets 0, 1, 2, 0, 2, 3 of one cell's six indices |
| GameOfLife.QuadIndices | scripts/game_of_life.js:188-196 | the index list the push loop builds for the first `cells` cells |
| GameOfLife.KernelIsConwayRule | scripts/game_of_life.js:43-47 | the weighted sum is 9·centre + neighbours, and `sum ∈ {3, 11, 12}` holds iff a dead cell has 3 live neighbours or a live cell has 2 or 3 (B3/S23) |
| GameOfLife.SetCell | scripts/game_of_life.js:24-26 | `set_board(index, v)` changes only entry 4·index and keeps the board length |
| GameOfLife.DeadBoard | scripts/game_of_life.js:14 | the zero-filled board has the requested length and only 0/255 entries |
| GameOfLife.GliderCells | scripts/game_of_life.js:35-41 | `glider(x, y)` makes exactly the five cells (y, x), (y−1, x+1), (y−1, x+2), (y−2, x) and (y−2, x+1) alive and leaves every other entry as it was |
| GameOfLife.SetFiveCells | scripts/game_of_life.js:36-40 | five `set_board(·, 255)` writes in a row make exactly those five cells alive |
| GameOfLife.Toggled | scripts/game_of_life.js:321 | a click toggle keeps the board length. For an index on the board, entry 4·index flips between dead and alive; every other entry is unchanged |
| GameOfLife.ToggleTwice | scripts/game_of_life.js:319-321 | a toggle keeps the board 0/255-valued, and toggling the same cell twice restores the board |
| GameOfLife.RandomizedCells | scripts/game_of_life.js:297-305 | after n draws, cell i < n is 255 iff its draw is below the threshold and 0 otherwise; every other entry is unchanged |
| GameOfLife.QuadIndicesLayout | scripts/game_of_life.js:188-196 | there are 6 entries per cell; entry 6i + k is 4i + (0, 1, 2, 0, 2, 3)[k]; every entry is < 4·cells |
| GameOfLife.QuadIndicesLength | scripts/game_of_life.js:188-196 | the index list has 6·cells entries |
| GameOfLife.BuildQuadIndices | scripts/game_of_life.js:188-196 | the push loop builds exactly that index list |
| GameOfLife.NewDeadBoard | scripts/game_of_life.js:14 | the board array is fresh and zero-filled |
| GameOfLife.Game.constructor | scripts/game_of_life.js:14-22 | a dead board of 4·w·h entries with the glider at (5, h − 5); stopped; elapsed time 0; iteration 1; threshold 0.5; framebuffer 0 and texture 1 bound, so the ping-pong is out of order (the first generation samples the texture it renders into) |
| GameOfLife.Game.SetBoard | scripts/game_of_life.js:24-26 | the board becomes `SetCell` of the old board |
| GameOfLife.Game.Glider | scripts/game_of_life.js:35-41 | the board becomes the old board with the glider placed, and it stays 0/255-valued |
| GameOfLife.Game.Pause | scripts/game_of_life.js:260-265 | `pause` stops the game, clears the elapsed time and restarts the clock |
| GameOfLife.Game.PauseButton | scripts/game_of_life.js:266-276 | the button toggles `running`; stopping also clears the elapsed time. The iteration, the threshold, and the bound framebuffer and texture are unchanged |
| GameOfLife.Game.InitBoardAsWritten | scripts/game_of_life.js:329-341 | as written, `init_board` leaves `elapsed_time` unchanged. It stops the game, sets iteration to 1, places the glider, and binds framebuffer 0 and texture 1. The ping-pong is then out of order: the next generation renders into `framebuffers[1]`, whose attachment is the sampled texture 1 |
| GameOfLife.Game.InitBoard | scripts/game_of_life.js:329-341 | the corrected `init_board` clears the elapsed time and starts at iteration 0. The first generation renders into `framebuffers[0]` while sampling texture 1, so the ping-pong is in order |
| GameOfLife.Game.Reset | scripts/game_of_life.js:278-283 | reset zeroes every board entry, then runs `init_board` as written, placing the glider at (5, h − 5). The game is stopped at iteration 1, the elapsed time is kept, and the ping-pong is out of order |
| GameOfLife.Game.Randomize | scripts/game_of_life.js:294-308 | every cell is set from its own draw against the threshold, and the game is left paused. The iteration, the threshold, and the bound framebuffer and texture are unchanged |
| GameOfLife.Game.SetThreshold | scripts/game_of_life.js:287-292 | Enter sets the threshold to the entered value, or to 0.5 when the box is empty. Nothing else changes: running, iteration, elapsed time, clock, and the bound framebuffer and texture |
| GameOfLife.Game.Click | scripts/game_of_life.js:310-324 | while stopped, the clicked cell flips between 0 and 255; while running, the board is unchanged |
| GameOfLife.Game.Render | scripts/game_of_life.js:345-378 | time accumulates only while running. Past 100 ms it drops by exactly 100, one generation is rendered into framebuffer `iteration % 2`, whose texture is sampled next, and the iteration counter rises by 1. A step reads a texture other than the one it writes exactly when the ping-pong was in order; after any step it is in order. `running` and the threshold are unchanged |
| GameOfLife.RunAfterReset | scripts/game_of_life.js:278-283 | after reset and Run, the first frame that computes a generation renders into `framebuffers[1]` while sampling `textures[1]`, its own attachment |
| Pong.Aligned | scripts/pong.js:65-69 | the x and y overlap tests of the ball and a paddle, edges included (also :86-90) |
| Pong.HitFraction | scripts/pong.js:72-73 | `fraction_in_y` before the clamp (also :93-94) |
| Pong.Deflect | scripts/pong.js:81-102 | the new ball velocity at a clamped fraction: +vx from the player's paddle, −vx from the computer's |
| Pong.Launch | scripts/pong.js:227-229 | the serve velocity for a draw |
| Pong.TouchesWall | scripts/pong.js:110 | the ball touches the top or bottom wall |
| Pong.WallExit | scripts/pong.js:114-132 | the goal the ball is in, the left one tested first |
| Pong.QuadCorners | scripts/pong.js:179-193 | the eight numbers `make_quad` writes: top left, top right, bottom left, bottom right |
| Pong.ClampPaddleY | scripts/pong.js:141-146 | for paddle height ≤ 2, the y after the two clamps lies in [height − 1, 1], and a y already in range is unchanged |
| Pong.ChaseVelocity | scripts/pong.js:159-177 | the computer paddle's velocity is always ±0.02; with a draw < 0.85 it is positive iff the ball is above the paddle, otherwise iff the ball is below |
| Pong.ClampFraction | scripts/pong.js:74-79 | the hit fraction is clamped into [0.2, 0.8], and an in-range fraction is unchanged |
| Pong.Bounce | scripts/pong.js:72-82 | the new velocity is the deflection at the clamped hit fraction |
| Pong.DeflectLeavesPaddle | scripts/pong.js:81-102 | when sin > 0 on (0, π) and sin² + cos² = 1: a player hit sends the ball right, a computer hit sends it left, and both keep speed 0.02 |
| Pong.ParkedBallIsFree | scripts/pong.js:36-39 | a ball parked between the serve point (−0.05, −0.05) and the centre touches no paddle, no wall and no goal |
| Pong.Threshold | scripts/pong.js:246-264 | the decision interval is below 500 ms iff the player leads, and equals 500 iff the scores are level |
| Pong.MakeQuad | scripts/pong.js:181-193 | `make_quad` writes exactly `a[index..index+8]` with the corners (x, y), (x+dx, y), (x, y−dy), (x+dx, y−dy); nothing else changes |
| Pong.SceneVertices | scripts/pong.js:195 | the frame's vertex data fills the 3·8 buffer |
| Pong.ElementIndicesCoverQuads | scripts/pong.js:196-200 | each quad's six indices name only its own four corners, and together they use all four. Every index is below the vertex count, 12 |
| Pong.Game.constructor | scripts/pong.js:8-39 | the game starts at 0–0 between rounds, with the ball still at the centre and the paddles still at their columns |
| Pong.Game.UpdatePositions | scripts/pong.js:135-156 | the ball moves by exactly dt·v; each paddle's x moves by dt·vx and is never clamped; each paddle's y is clamped into [height − 1, 1] |
| Pong.Game.PaddleCollide | scripts/pong.js:63-105 | the player paddle is checked first, and a hit there returns; a hit gives the deflection for that paddle; with no hit the velocity is unchanged |
| Pong.Game.WallCollide | scripts/pong.js:109-133 | vy is negated at the top and bottom walls. A left exit adds 1 to the computer's score, a right exit adds 1 to the player's; either one puts the ball, still, at (ball_x0, ball_y0) between rounds. Scores never decrease |
| Pong.Game.UpdateComputerPaddleVelocity | scripts/pong.js:159-177 | the computer paddle's vy becomes the chase velocity for the draw; nothing else changes |
| Pong.Game.KeyDown | scripts/pong.js:214-236 | the arrows set the player's vy to ±0.02 and any other key sets it to 0; space launches the ball only between rounds, and clears that flag |
| Pong.Game.KeyUp | scripts/pong.js:238-244 | releasing an arrow sets the player's vy to 0; other keys change nothing |
| Pong.Game.LayOutQuads | scripts/pong.js:256-258 | the buffer holds the ball's corners, then the player paddle's, then the computer paddle's |
| Pong.Game.Render | scripts/pong.js:250-275 | the frame lays out the quads from the old positions. Past the score-dependent threshold the computer paddle decides again and the timer resets. Scores never decrease, and they rise by at most one point per frame |
| Pong.ServeAfterGoal | scripts/pong.js:114-132 | after a goal, the next space press always serves again with the launch velocity |

## Left out

- Browser plumbing is not modelled: the DOM, canvas contexts,
  `getImageData`/`putImageData`, WebGL and WebGPU objects, shader
  compilation, buffers, textures, event-listener registration,
  `requestAnimationFrame`, `update_fps` and its text, and the unused worker
  pool. These have no computational content that reals can capture.
- Floating-point rounding is not modelled. Every claim is stated over
  exact reals. That covers single-precision shader arithmetic, the
  accumulated `c_re += delta_real` compared with `real_min + i·delta_real`,
  and the 1e-5 zoom floor as a precision limit.
- The double-single (two-float) shader path and `split_double` are not
  modelled. Their whole purpose is single-precision rounding, and the path
  is commented out in the page.
- The cosine palette values, `Math.sin`/`Math.cos`/`Math.PI`, rotation
  matrices, `look_at_matrix`, `perspective_projection`, `normalized_vector`
  and the light orbit are not modelled: their values are not exact over
  reals. The palette's colour function and sin/cos/π are parameters. The
  model covers the table layout, not the colours.
- The GPU side of Game of Life is not modelled. That includes the texture
  sampling over the whole board, the quad vertex and gridline arrays
  (scripts/game_of_life.js:163-247), and drawing. The kernel rule is
  modelled on one 3×3 neighbourhood.
- scripts/webgpu_utils.js and navbar.js are not part of this model.
- JavaScript array growth is not modelled. A `set_board` or click on a cell
  outside the board extends the JavaScript array; here such a write leaves
  the board unchanged. A negative cell number writes a property that the
  board never shows, and the model drops that write as well.
- A non-numeric value typed into the probability box is not modelled. The
  model takes the entered number, or 0.5 when the box is empty.
- The 16-bit index buffers (`Uint16Array`, `UNSIGNED_SHORT`) are not
  modelled. Their overflow for meshes with more than 65536 vertices is out
  of scope; indices are unbounded naturals.
- Sphere.GenerateSphereVertices: requires a non-zero radius. With radius 0
  the source computes `1/0 = Infinity` and NaN normals, which reals cannot
  represent. With zero slices, the source's angle step `π/0` is used only
  after the last ring, so the model takes it as 0.
- Pong's start-up draw `vx0`/`vy0` (scripts/pong.js:14-16) is not
  modelled, because the space handler overwrites it immediately
  (scripts/pong.js:224-229). `game_paused` (scripts/pong.js:8) is never
  read and is not modelled either.
- Zoom.ZoomListener.MouseMove: requires a non-zero canvas width and height.
  The source divides by them unguarded, and a zero size gives Infinity or
  NaN fractions, which reals cannot represent.
- JuliaPicker.DotFor, JuliaPicker.ConstantAt, JuliaPicker.DotLandsOnClick,
  JuliaPicker.ClickOnDotSelectsConstant and JuliaPicker.Picker.Click:
  require a non-zero canvas width and height, for the same reason.
- Pong.Game.Render: states the vertex layout, the timer, the computer
  paddle's decision, the player velocity and the score bounds. It does not
  restate the full ball and paddle state after the three step methods,
  whose own contracts state it.
- Zoom.ZoomListener.MouseEnter: states the hover flag, whether the step
  proceeds, and the time accounting. The view after the step is stated by
  `Zoom.ZoomListener.Step`, which it calls.
- Zoom.Bounds.Julia: `julia_bounds0` has no time field; the model starts
  the time at 0.
- GameOfLife.Game.Render: does not model the page's draw calls. Only the
  state machine is modelled: running, elapsed time, iteration, and the
  bound framebuffer and texture.
- The `positions` fill loop of the first WebGL page
  (scripts/mandelbrot_webgl.js:112-119) is not modelled. Its vertex shader
  never reads the positions, so they do not affect the picture.

## Findings

| source | as written | input that shows it | evidently intended | confidence | as-written member | corrected member |
|---|---|---|---|---|---|---|
| scripts/complex.js:35 | the loop continues while the SQUARED norm is below 2, that is while \|z\| < √2 | c = i: the orbit is 0, i, −1 + i, and ‖−1 + i‖² = 2 stops the loop at count 2, so the pixel is coloured although i is in the Mandelbrot set. On a 5 × 10 canvas this is pixel (3, 9), painted hsl(2) (ComplexCanvas.ImaginaryPixel) | squared norm below 4 (escape radius 2), as every other iterator of the site uses; then c = i runs to 100 and is black | medium, not executed | ComplexCanvas.ImaginaryUnitAsWritten | ComplexCanvas.ImaginaryUnitInSet |
| static/scripts/webgl_utils.js:159-166 | `matrix_vector_multiply4d` reads the flat matrix row by row (`m[4r + c]`), while the library stores matrices with the translation in entries 12..14 | `translation_matrix4d(1, 2, 3)` applied to (0, 0, 0) gives [0, 0, 0, 1] instead of [1, 2, 3, 1] | read column by column, consistent with `multiply_matrix4d`: output r is Σ_c m[4c + r]·(v, 1)_c | medium, not executed | Matrices.MatVec4AsWrittenIgnoresTranslation | Matrices.MatVec4Translates |
| scripts/webgl_utils.js:151-153 | `translation_matrix3d` evaluates `Math.cos(angle)` with `angle` neither a parameter nor declared | any call, e.g. `translation_matrix3d(1, 2)`, with no global `angle` throws a ReferenceError | build the matrix without the unused trigonometry, as the newer copy does | high, not executed | Matrices.Translation3AsWrittenFails | Matrices.Translation3Composes |
| scripts/game_of_life.js:332-339 | `init_board` sets `iteration = 1` and binds `textures[1]` for sampling. The first generation, at :372, then renders into `framebuffers[1]`, whose colour attachment is `textures[1]` (:57-64): the texture it samples | run the game after page load or reset: the first step reads and writes `textures[1]`, a feedback loop | as the comments at :326-328 and :358-362 say, render the first generation into `framebuffers[0]` while sampling `textures[1]`, i.e. start the counter at 0 | medium, not executed | GameOfLife.Game.InitBoardAsWritten | GameOfLife.Game.InitBoard |
| scripts/game_of_life.js:331 | `init_board` assigns `time_elapsed = 0`, a misspelt implicit global, so `elapsed_time` keeps its value | reset while running with `elapsed_time` = 60: after Run, the first generation comes 40 ms later instead of 100 ms | clear `elapsed_time`, as `pause` does | high, not executed | GameOfLife.Game.InitBoardAsWritten | GameOfLife.Game.InitBoard |
