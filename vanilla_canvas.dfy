/**
 * The two CPU-rendered canvases of the zooming Mandelbrot page: the colour
 * lookup table and `color_canvas`, which writes one RGBA pixel per canvas
 * position into the canvas's byte buffer.
 *
 * The lookup table holds 3 bytes per iteration count 0..50; the entries for
 * counts below 50 come from a cosine colour function, which is a
 * parameter here, and the entry for 50 (never escaped) is black.
 *
 * `color_canvas` walks the rows from j = height down to j = 0, so row j is
 * coloured with the imaginary part imag_min + (height - j) * delta_imag;
 * the first pass (j = height) addresses bytes at or beyond the end of the
 * buffer, and those writes are dropped as typed-array writes out of range
 * are.
 */
module VanillaCanvas {
  import opened Complex
  import opened MandelbrotIterators
  import opened Zoom

  /** 3 bytes for each count 0..50. */
  const PaletteLength: nat := 3 * (MaxIterationsVanilla + 1)

  /**
   * The conversion a `Uint8Array` store applies to a number: truncate
   * toward zero, then reduce modulo 256.
   */
  function ToUint8(x: real): (b: int)
    ensures 0 <= b < 256
    ensures 0.0 <= x < 256.0 ==> b == x.Floor
  {
    var t := if x >= 0.0 then x.Floor else -((-x).Floor);
    t % 256
  }

  /**
   * Channel k (0 red, 1 green, 2 blue) of the cosine palette at t, with the
   * cosine itself a parameter: a + b * cos(6.28 * (c * t + d)).
   */
  function Channel(cos: real -> real, t: real, k: nat): real
    requires k < 3
  {
    var d := if k == 0 then 0.1 else if k == 1 then 0.2 else 0.05;
    0.1 + 0.75 * cos(6.28 * (40.0 * t + d))
  }

  /** Channel k of the table entry for count i < 50, sampled at t = i / 50. */
  function PaletteByte(cos: real -> real, i: nat, k: nat): (b: int)
    requires k < 3
    ensures 0 <= b < 256
  {
    ToUint8(Channel(cos, (i as real) / 50.0, k) * 255.0)
  }

  /** Entry n of the lookup table: a colour byte for counts below 50, black for 50. */
  function PaletteEntry(cos: real -> real, n: nat): (b: int)
    ensures 0 <= b < 256
    ensures n >= 3 * MaxIterationsVanilla ==> b == 0
  {
    if n < 3 * MaxIterationsVanilla then PaletteByte(cos, n / 3, n % 3) else 0
  }

  /** Entry 3i + k of the table is channel k of count i. */
  lemma PaletteEntryAt(cos: real -> real, i: nat, k: nat)
    requires i < MaxIterationsVanilla && k < 3
    ensures PaletteEntry(cos, 3 * i + k) == PaletteByte(cos, i, k)
  {
    assert (3 * i + k) / 3 == i && (3 * i + k) % 3 == k;
  }

  /** Builds the lookup table: counts 0..49 from the colour function, then black. */
  method BuildPalette(cos: real -> real) returns (palette: array<int>)
    ensures fresh(palette)
    ensures palette.Length == PaletteLength
    ensures forall n :: 0 <= n < palette.Length ==> palette[n] == PaletteEntry(cos, n)
  {
    palette := new int[PaletteLength](_ => 0);
    var i := 0;
    while i < MaxIterationsVanilla
      invariant i <= MaxIterationsVanilla
      invariant forall n :: 0 <= n < 3 * i ==> palette[n] == PaletteEntry(cos, n)
    {
      WriteEntry(palette, cos, i);
      i := i + 1;
    }
    palette[3 * MaxIterationsVanilla + 0] := 0;
    palette[3 * MaxIterationsVanilla + 1] := 0;
    palette[3 * MaxIterationsVanilla + 2] := 0;
  }

  /** One pass of the table loop: the three colour bytes of count i. */
  method WriteEntry(palette: array<int>, cos: real -> real, i: nat)
    requires i < MaxIterationsVanilla && palette.Length == PaletteLength
    modifies palette
    ensures forall n :: 3 * i <= n < 3 * i + 3 ==> palette[n] == PaletteEntry(cos, n)
    ensures forall n :: 0 <= n < palette.Length && !(3 * i <= n < 3 * i + 3) ==> palette[n] == old(palette[n])
  {
    palette[3 * i + 0] := PaletteByte(cos, i, 0);
    palette[3 * i + 1] := PaletteByte(cos, i, 1);
    palette[3 * i + 2] := PaletteByte(cos, i, 2);
    forall n | 3 * i <= n < 3 * i + 3
      ensures palette[n] == PaletteEntry(cos, n)
    {
      PaletteEntryAt(cos, i, n - 3 * i);
    }
  }

  /**
   * Every vanilla count selects a whole triple inside the table, and the
   * count of a point that never escaped selects the black triple.
   */
  lemma PaletteIndexInRange(cos: real -> real, cRe: real, cIm: real)
    ensures 3 * VanillaCount(cRe, cIm) + 2 < PaletteLength
    ensures VanillaCount(cRe, cIm) == MaxIterationsVanilla ==>
              && PaletteEntry(cos, 3 * VanillaCount(cRe, cIm)) == 0
              && PaletteEntry(cos, 3 * VanillaCount(cRe, cIm) + 1) == 0
              && PaletteEntry(cos, 3 * VanillaCount(cRe, cIm) + 2) == 0
  {
    VanillaCountRange(cRe, cIm);
  }

  /** Which of the two interchangeable iterators a canvas uses. */
  datatype Iterator = Functional | Imperative

  /** Byte offset of pixel (i, j) in a buffer of rows `width` pixels wide. */
  function ByteIndex(i: nat, j: nat, width: nat): nat
  {
    4 * (j * width + i)
  }

  /** The real part sampled for column i. */
  function PixelRe(view: View, i: nat, width: nat): real
    requires width > 0
  {
    view.realMin + (i as real) * (view.RealSpan() / (width as real))
  }

  /** The imaginary part sampled for row j: rows are visited from j = height down. */
  function PixelIm(view: View, j: nat, height: nat): real
    requires height > 0
  {
    view.imagMin + ((height - j) as real) * (view.ImagSpan() / (height as real))
  }

  /**
   * Pixel (i, j) of `data` holds the table triple for the count at its
   * point, followed by alpha 255.
   */
  ghost predicate PixelWritten(data: seq<int>, palette: seq<int>, view: View,
                               width: nat, height: nat, i: nat, j: nat)
    requires width > 0 && height > 0
  {
    var b := ByteIndex(i, j, width);
    var t := 3 * VanillaCount(PixelRe(view, i, width), PixelIm(view, j, height));
    && b + 3 < |data| && t + 2 < |palette|
    && data[b] == palette[t] && data[b + 1] == palette[t + 1] && data[b + 2] == palette[t + 2]
    && data[b + 3] == 255
  }

  /** Pixels of a `width`-wide buffer occupy disjoint 4-byte groups. */
  lemma PixelBytesDisjoint(i: nat, j: nat, i': nat, j': nat, width: nat)
    requires i < width && i' < width && (i != i' || j != j')
    ensures ByteIndex(i, j, width) + 4 <= ByteIndex(i', j', width)
            || ByteIndex(i', j', width) + 4 <= ByteIndex(i, j, width)
  {
    if j < j' {
      RowsAreOrdered(j, j', width);
    } else if j' < j {
      RowsAreOrdered(j', j, width);
    }
  }

  /** A later row starts at least one whole row further on. */
  lemma {:induction false} RowsAreOrdered(j: nat, j': nat, width: nat)
    requires j < j'
    ensures j * width + width <= j' * width
    decreases j' - j
  {
    assert (j + 1) * width == j * width + width;
    if j + 1 < j' {
      RowsAreOrdered(j + 1, j', width);
    }
  }

  /** The pixels of rows 0..height-1 lie inside a buffer of 4 * width * height bytes. */
  lemma PixelInsideBuffer(i: nat, j: nat, width: nat, height: nat)
    requires i < width && j < height
    ensures ByteIndex(i, j, width) + 3 < 4 * width * height
  {
    RowsAreOrdered(j, height, width);
    assert height * width == width * height;
  }

  /** The first pass, row j = height, addresses only bytes past the buffer's end. */
  lemma RowHeightOutsideBuffer(i: nat, width: nat, height: nat)
    ensures ByteIndex(i, height, width) >= 4 * width * height
  {
  }

  /** A typed-array store: a write at or past the end is dropped. */
  method Store(data: array<int>, n: nat, v: int)
    modifies data
    ensures data[..] == if n < data.Length then old(data[..])[n := v] else old(data[..])
  {
    if n < data.Length {
      data[n] := v;
    }
  }

  /** One pixel stays written while bytes outside its group change. */
  lemma PixelWrittenFrame(before: seq<int>, after: seq<int>, palette: seq<int>, view: View,
                          width: nat, height: nat, i: nat, j: nat, lo: nat)
    requires width > 0 && height > 0
    requires PixelWritten(before, palette, view, width, height, i, j)
    requires |after| == |before|
    requires ByteIndex(i, j, width) + 4 <= lo || lo + 4 <= ByteIndex(i, j, width)
    requires forall n :: 0 <= n < |before| && (n < lo || lo + 4 <= n) ==> after[n] == before[n]
    ensures PixelWritten(after, palette, view, width, height, i, j)
  {
    var b := ByteIndex(i, j, width);
    assert after[b] == before[b] && after[b + 1] == before[b + 1];
    assert after[b + 2] == before[b + 2] && after[b + 3] == before[b + 3];
  }

  /** Moving one column right adds delta_real to the real part. */
  lemma PixelReStep(view: View, i: nat, width: nat)
    requires width > 0
    ensures PixelRe(view, i + 1, width) == PixelRe(view, i, width) + view.RealSpan() / (width as real)
  {
    var d := view.RealSpan() / (width as real);
    assert ((i + 1) as real) * d == (i as real) * d + d;
  }

  /** Moving one row up (j to j - 1) adds delta_imag to the imaginary part. */
  lemma PixelImStep(view: View, j: nat, height: nat)
    requires height > 0 && 0 < j <= height
    ensures PixelIm(view, j - 1, height) == PixelIm(view, j, height) + view.ImagSpan() / (height as real)
  {
    var d := view.ImagSpan() / (height as real);
    assert ((height - (j - 1)) as real) * d == ((height - j) as real) * d + d;
  }

  /**
   * The four stores of one pixel at byte offset `dataIndex`: the colour
   * triple from the table at `paletteIndex`, then alpha 255. Stores past the
   * end are dropped; no other byte changes.
   */
  method WritePixel(data: array<int>, dataIndex: nat, palette: array<int>, paletteIndex: nat)
    requires paletteIndex + 2 < palette.Length && data != palette
    modifies data
    ensures forall n :: 0 <= n < data.Length && (n < dataIndex || dataIndex + 4 <= n) ==> data[n] == old(data[n])
    ensures dataIndex + 3 < data.Length ==>
              && data[dataIndex] == palette[paletteIndex]
              && data[dataIndex + 1] == palette[paletteIndex + 1]
              && data[dataIndex + 2] == palette[paletteIndex + 2]
              && data[dataIndex + 3] == 255
  {
    Store(data, dataIndex + 0, palette[paletteIndex + 0]);
    Store(data, dataIndex + 1, palette[paletteIndex + 1]);
    Store(data, dataIndex + 2, palette[paletteIndex + 2]);
    Store(data, dataIndex + 3, 255);
  }

  /**
   * Writing pixel (i, j) keeps every pixel already written: the later rows
   * and the earlier pixels of row j.
   */
  lemma OtherPixelsKept(before: seq<int>, after: seq<int>, palette: seq<int>, view: View,
                        width: nat, height: nat, i: nat, j: nat)
    requires i < width && |after| == |before|
    requires forall n :: 0 <= n < |before| && (n < ByteIndex(i, j, width) || ByteIndex(i, j, width) + 4 <= n) ==>
               after[n] == before[n]
    requires forall i', j' :: 0 <= i' < width && j < j' < height ==>
               PixelWritten(before, palette, view, width, height, i', j')
    requires j < height ==> forall i' :: 0 <= i' < i ==>
               PixelWritten(before, palette, view, width, height, i', j)
    ensures forall i', j' :: 0 <= i' < width && j < j' < height ==>
              PixelWritten(after, palette, view, width, height, i', j')
    ensures j < height ==> forall i' :: 0 <= i' < i ==>
              PixelWritten(after, palette, view, width, height, i', j)
  {
    var lo := ByteIndex(i, j, width);
    forall i', j' | 0 <= i' < width && j < j' < height
      ensures PixelWritten(after, palette, view, width, height, i', j')
    {
      PixelBytesDisjoint(i, j, i', j', width);
      PixelWrittenFrame(before, after, palette, view, width, height, i', j', lo);
    }
    if j < height {
      forall i' | 0 <= i' < i
        ensures PixelWritten(after, palette, view, width, height, i', j)
      {
        PixelBytesDisjoint(i, j, i', j, width);
        PixelWrittenFrame(before, after, palette, view, width, height, i', j, lo);
      }
    }
  }

  /** The four bytes just stored at pixel (i, j) make it a written pixel. */
  lemma PixelJustWritten(data: seq<int>, palette: seq<int>, view: View,
                         width: nat, height: nat, i: nat, j: nat, t: nat)
    requires i < width && j < height
    requires ByteIndex(i, j, width) + 3 < |data|
    requires t == 3 * VanillaCount(PixelRe(view, i, width), PixelIm(view, j, height)) && t + 2 < |palette|
    requires var b := ByteIndex(i, j, width);
             && data[b] == palette[t] && data[b + 1] == palette[t + 1] && data[b + 2] == palette[t + 2]
             && data[b + 3] == 255
    ensures PixelWritten(data, palette, view, width, height, i, j)
  {
  }

  /** The body of the inner loop of `color_canvas`: pixel (i, j) at point (cRe, cIm). */
  method ColorPixel(data: array<int>, palette: array<int>, width: nat, height: nat,
                    view: View, which: Iterator, i: nat, j: nat, cRe: real, cIm: real)
    requires data.Length == 4 * width * height
    requires palette.Length == PaletteLength
    requires data != palette
    requires i < width && j <= height
    requires width > 0 ==> cRe == PixelRe(view, i, width)
    requires height > 0 ==> cIm == PixelIm(view, j, height)
    requires forall i', j' :: 0 <= i' < width && j < j' < height ==>
               PixelWritten(data[..], palette[..], view, width, height, i', j')
    requires j < height ==> forall i' :: 0 <= i' < i ==>
               PixelWritten(data[..], palette[..], view, width, height, i', j)
    modifies data
    ensures forall i', j' :: 0 <= i' < width && j < j' < height ==>
              PixelWritten(data[..], palette[..], view, width, height, i', j')
    ensures j < height ==> forall i' :: 0 <= i' <= i ==>
              PixelWritten(data[..], palette[..], view, width, height, i', j)
  {
    var iterations;
    if which == Functional {
      iterations := FunctionalIterate(cRe, cIm);
    } else {
      iterations := ImperativeIterate(cRe, cIm);
    }
    VanillaCountRange(cRe, cIm);

    var dataIndex := 4 * (j * width + i);
    var paletteIndex := 3 * iterations;
    ghost var before := data[..];
    WritePixel(data, dataIndex, palette, paletteIndex);

    OtherPixelsKept(before, data[..], palette[..], view, width, height, i, j);
    if j < height {
      PixelInsideBuffer(i, j, width, height);
      PixelJustWritten(data[..], palette[..], view, width, height, i, j, paletteIndex);
    }
  }

  /**
   * One pass of the outer loop of `color_canvas`: row j, left to right,
   * at imaginary part cIm. Row `height` lies past the end of the buffer and
   * writes nothing that is kept.
   */
  method ColorRow(data: array<int>, palette: array<int>, width: nat, height: nat,
                  view: View, which: Iterator, deltaReal: real, j: int, cIm: real)
    requires data.Length == 4 * width * height
    requires palette.Length == PaletteLength
    requires data != palette
    requires 0 <= j <= height
    requires deltaReal == if width > 0 then view.RealSpan() / (width as real) else 0.0
    requires height > 0 ==> cIm == PixelIm(view, j, height)
    requires forall i', j' :: 0 <= i' < width && j < j' < height ==>
               PixelWritten(data[..], palette[..], view, width, height, i', j')
    modifies data
    ensures forall i', j' :: 0 <= i' < width && j <= j' < height ==>
              PixelWritten(data[..], palette[..], view, width, height, i', j')
  {
    var cRe := view.realMin;
    var i := 0;
    while i < width
      invariant 0 <= i <= width
      invariant width > 0 ==> cRe == PixelRe(view, i, width)
      invariant forall i', j' :: 0 <= i' < width && j < j' < height ==>
                  PixelWritten(data[..], palette[..], view, width, height, i', j')
      invariant j < height ==> forall i' :: 0 <= i' < i ==>
                  PixelWritten(data[..], palette[..], view, width, height, i', j)
    {
      ColorPixel(data, palette, width, height, view, which, i, j, cRe, cIm);
      PixelReStep(view, i, width);
      cRe := cRe + deltaReal;
      i := i + 1;
    }
  }

  /**
   * `color_canvas`: after it returns, every pixel (i, j) with j < height and
   * i < width holds the table triple for the vanilla count at
   * (real_min + i * delta_real, imag_min + (height - j) * delta_imag),
   * followed by alpha 255.
   */
  method ColorCanvas(data: array<int>, palette: array<int>, width: nat, height: nat,
                     view: View, which: Iterator)
    requires data.Length == 4 * width * height
    requires palette.Length == PaletteLength
    requires data != palette
    modifies data
    ensures forall i, j :: 0 <= i < width && 0 <= j < height ==>
              PixelWritten(data[..], palette[..], view, width, height, i, j)
  {
    var deltaReal := if width > 0 then view.RealSpan() / (width as real) else 0.0;
    var deltaImag := if height > 0 then view.ImagSpan() / (height as real) else 0.0;

    var cIm := view.imagMin;
    var j: int := height;
    while j >= 0
      invariant -1 <= j <= height
      invariant height > 0 && j >= 0 ==> cIm == PixelIm(view, j, height)
      invariant forall i', j' :: 0 <= i' < width && j < j' < height ==>
                  PixelWritten(data[..], palette[..], view, width, height, i', j')
      decreases j
    {
      ColorRow(data, palette, width, height, view, which, deltaReal, j, cIm);
      if height > 0 && j > 0 {
        PixelImStep(view, j, height);
      }
      cIm := cIm + deltaImag;
      j := j - 1;
    }
  }
}
