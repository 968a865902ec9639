/**
 * The matrix kernel of the WebGL helper library (both copies of
 * `webgl_utils.js`). Matrices are flat arrays: a 3x3 matrix has 9 entries
 * and a 4x4 matrix 16, and the (i, j) element of an n x n matrix is entry
 * n * i + j. Products follow the library's convention
 * c_ij = sum over k of b_ik * a_kj, with a the left and b the right
 * operand; with the translation stored in the last row, this is the
 * column-major product that WebGL expects.
 */
module Matrices {

  type Mat3 = m: seq<real> | |m| == 9
    witness [0.0, 0.0, 0.0, 0.0, 0.0, 0.0, 0.0, 0.0, 0.0]

  type Mat4 = m: seq<real> | |m| == 16
    witness [0.0, 0.0, 0.0, 0.0, 0.0, 0.0, 0.0, 0.0, 0.0, 0.0, 0.0, 0.0, 0.0, 0.0, 0.0, 0.0]

  /** The (i, j) element of a flat 3 x 3 matrix. */
  function At3(m: Mat3, i: nat, j: nat): real
    requires i < 3 && j < 3
  {
    m[3 * i + j]
  }

  /** The (i, j) element of a flat 4 x 4 matrix. */
  function At4(m: Mat4, i: nat, j: nat): real
    requires i < 4 && j < 4
  {
    m[4 * i + j]
  }

  /**
   * The library's convention for element (i, j) of a 3 x 3 product: the
   * sum over k of right(i, k) * left(k, j).
   */
  function Convention3(left: Mat3, right: Mat3, i: nat, j: nat): real
    requires i < 3 && j < 3
  {
    At3(right, i, 0) * At3(left, 0, j) + At3(right, i, 1) * At3(left, 1, j) + At3(right, i, 2) * At3(left, 2, j)
  }

  /**
   * The same convention for a 4 x 4 product, summed over k = 0 .. count - 1
   * in increasing k: left(k, j) * right(i, k).
   */
  function PartialSum4(left: Mat4, right: Mat4, i: nat, j: nat, count: nat): real
    requires i < 4 && j < 4 && count <= 4
  {
    if count == 0 then 0.0
    else PartialSum4(left, right, i, j, count - 1) + At4(left, count - 1, j) * At4(right, i, count - 1)
  }

  /** One more term of the sum, read straight from the two entry sequences. */
  lemma PartialSum4Step(left: Mat4, right: Mat4, i: nat, j: nat, k: nat)
    requires i < 4 && j < 4 && k < 4
    ensures PartialSum4(left, right, i, j, k + 1)
            == PartialSum4(left, right, i, j, k) + left[4 * k + j] * right[4 * i + k]
  {
  }

  // ---------------------------------------------------------------- 3 x 3

  function Identity3(): Mat3
  {
    [1.0, 0.0, 0.0,
     0.0, 1.0, 0.0,
     0.0, 0.0, 1.0]
  }

  function Translation3(dx: real, dy: real): Mat3
  {
    [1.0, 0.0, 0.0,
     0.0, 1.0, 0.0,
     dx, dy, 1.0]
  }

  function Scaling3(sx: real, sy: real): Mat3
  {
    [sx, 0.0, 0.0,
     0.0, sy, 0.0,
     0.0, 0.0, 1.0]
  }

  /** `multiply_matrix3d`, written out entry by entry as the library does. */
  function Mul3(left: Mat3, right: Mat3): Mat3
  {
    var a00, a01, a02 := left[0], left[1], left[2];
    var a10, a11, a12 := left[3], left[4], left[5];
    var a20, a21, a22 := left[6], left[7], left[8];
    var b00, b01, b02 := right[0], right[1], right[2];
    var b10, b11, b12 := right[3], right[4], right[5];
    var b20, b21, b22 := right[6], right[7], right[8];
    [b00 * a00 + b01 * a10 + b02 * a20, b00 * a01 + b01 * a11 + b02 * a21, b00 * a02 + b01 * a12 + b02 * a22,
     b10 * a00 + b11 * a10 + b12 * a20, b10 * a01 + b11 * a11 + b12 * a21, b10 * a02 + b11 * a12 + b12 * a22,
     b20 * a00 + b21 * a10 + b22 * a20, b20 * a01 + b21 * a11 + b22 * a21, b20 * a02 + b21 * a12 + b22 * a22]
  }

  /** Entry (i, j) of the written-out product follows the library's convention. */
  lemma Mul3Entry(left: Mat3, right: Mat3, i: nat, j: nat)
    requires i < 3 && j < 3
    ensures At3(Mul3(left, right), i, j) == Convention3(left, right, i, j)
  {
    if i == 0 {
      Mul3Row0(left, right, j);
    } else if i == 1 {
      Mul3Row1(left, right, j);
    } else {
      Mul3Row2(left, right, j);
    }
  }

  /** Row 0 of the written-out product. */
  lemma Mul3Row0(left: Mat3, right: Mat3, j: nat)
    requires j < 3
    ensures At3(Mul3(left, right), 0, j) == Convention3(left, right, 0, j)
  {
    var c := Mul3(left, right);
    if j == 0 {
      assert At3(c, 0, 0) == c[0];
    } else if j == 1 {
      assert At3(c, 0, 1) == c[1];
    } else {
      assert At3(c, 0, 2) == c[2];
    }
  }

  /** Row 1 of the written-out product. */
  lemma Mul3Row1(left: Mat3, right: Mat3, j: nat)
    requires j < 3
    ensures At3(Mul3(left, right), 1, j) == Convention3(left, right, 1, j)
  {
    var c := Mul3(left, right);
    if j == 0 {
      assert At3(c, 1, 0) == c[3];
    } else if j == 1 {
      assert At3(c, 1, 1) == c[4];
    } else {
      assert At3(c, 1, 2) == c[5];
    }
  }

  /** Row 2 of the written-out product. */
  lemma Mul3Row2(left: Mat3, right: Mat3, j: nat)
    requires j < 3
    ensures At3(Mul3(left, right), 2, j) == Convention3(left, right, 2, j)
  {
    var c := Mul3(left, right);
    if j == 0 {
      assert At3(c, 2, 0) == c[6];
    } else if j == 1 {
      assert At3(c, 2, 1) == c[7];
    } else {
      assert At3(c, 2, 2) == c[8];
    }
  }

  /** Every entry of the written-out product follows the library's convention. */
  lemma Mul3FollowsConvention(left: Mat3, right: Mat3)
    ensures forall i, j :: 0 <= i < 3 && 0 <= j < 3 ==> At3(Mul3(left, right), i, j) == Convention3(left, right, i, j)
  {
    forall i, j | 0 <= i < 3 && 0 <= j < 3
      ensures At3(Mul3(left, right), i, j) == Convention3(left, right, i, j)
    {
      Mul3Entry(left, right, i, j);
    }
  }

  /** The 3 x 3 identity is neutral on both sides of the product. */
  lemma Identity3IsNeutral(m: Mat3)
    ensures Mul3(Identity3(), m) == m
    ensures Mul3(m, Identity3()) == m
  {
  }

  /** Composing two 2-D translations translates by the sum. */
  lemma Translation3Composes(dx1: real, dy1: real, dx2: real, dy2: real)
    ensures Mul3(Translation3(dx1, dy1), Translation3(dx2, dy2)) == Translation3(dx1 + dx2, dy1 + dy2)
  {
  }

  /** Composing two 2-D scalings scales by the product. */
  lemma Scaling3Composes(sx1: real, sy1: real, sx2: real, sy2: real)
    ensures Mul3(Scaling3(sx1, sy1), Scaling3(sx2, sy2)) == Scaling3(sx1 * sx2, sy1 * sy2)
  {
    assert sx2 * sx1 == sx1 * sx2 && sy2 * sy1 == sy1 * sy2;
    var m := Mul3(Scaling3(sx1, sy1), Scaling3(sx2, sy2));
    assert m[0] == sx2 * sx1 && m[1] == 0.0 && m[2] == 0.0;
    assert m[3] == 0.0 && m[4] == sy2 * sy1 && m[5] == 0.0;
    assert m[6] == 0.0 && m[7] == 0.0 && m[8] == 1.0;
  }

  /** What a reference to a global name can give: its value, or a ReferenceError. */
  datatype Lookup<T> = Found(value: T) | ReferenceError(name: string)

  /**
   * `translation_matrix3d` of the older library copy: before building the
   * matrix it computes the cosine and sine of a variable `angle` that is
   * neither a parameter nor declared, so the call throws a ReferenceError
   * unless some script defines a global `angle`. `globalAngle` is that
   * global, when one exists; the cosine and sine are unused.
   */
  function Translation3AsWritten(dx: real, dy: real, globalAngle: Lookup<real>): (r: Lookup<Mat3>)
    ensures globalAngle.ReferenceError? ==> r == ReferenceError("angle")
    ensures globalAngle.Found? ==> r == Found(Translation3(dx, dy))
  {
    match globalAngle
    case ReferenceError(_) => ReferenceError("angle")
    case Found(_) =>
      var m: Mat3 := [1.0, 0.0, 0.0, 0.0, 1.0, 0.0, dx, dy, 1.0];
      Found(m)
  }

  /**
   * With no global `angle`, the older copy fails; with one, whatever its
   * value, it returns the same matrix as the newer copy.
   */
  lemma Translation3AsWrittenFails(dx: real, dy: real, angle: real)
    ensures Translation3AsWritten(dx, dy, ReferenceError("angle")).ReferenceError?
    ensures Translation3AsWritten(dx, dy, Found(angle)) == Found(Translation3(dx, dy))
  {
  }

  // ---------------------------------------------------------------- 4 x 4

  function Identity4(): Mat4
  {
    [1.0, 0.0, 0.0, 0.0,
     0.0, 1.0, 0.0, 0.0,
     0.0, 0.0, 1.0, 0.0,
     0.0, 0.0, 0.0, 1.0]
  }

  function Translation4(dx: real, dy: real, dz: real): Mat4
  {
    [1.0, 0.0, 0.0, 0.0,
     0.0, 1.0, 0.0, 0.0,
     0.0, 0.0, 1.0, 0.0,
     dx, dy, dz, 1.0]
  }

  function Scaling4(sx: real, sy: real, sz: real): Mat4
  {
    [sx, 0.0, 0.0, 0.0,
     0.0, sy, 0.0, 0.0,
     0.0, 0.0, sz, 0.0,
     0.0, 0.0, 0.0, 1.0]
  }

  /** Element (i, j) of the 4 x 4 product, the full convention sum. */
  function Convention4(left: Mat4, right: Mat4, i: nat, j: nat): real
    requires i < 4 && j < 4
  {
    At4(left, 0, j) * At4(right, i, 0) + At4(left, 1, j) * At4(right, i, 1)
    + At4(left, 2, j) * At4(right, i, 2) + At4(left, 3, j) * At4(right, i, 3)
  }

  /** The accumulation over all four k is the convention sum. */
  lemma PartialSum4Complete(left: Mat4, right: Mat4, i: nat, j: nat)
    requires i < 4 && j < 4
    ensures PartialSum4(left, right, i, j, 4) == Convention4(left, right, i, j)
  {
    assert PartialSum4(left, right, i, j, 1) == At4(left, 0, j) * At4(right, i, 0);
    assert PartialSum4(left, right, i, j, 2) == PartialSum4(left, right, i, j, 1) + At4(left, 1, j) * At4(right, i, 1);
    assert PartialSum4(left, right, i, j, 3) == PartialSum4(left, right, i, j, 2) + At4(left, 2, j) * At4(right, i, 2);
  }

  /** The product `multiply_matrix4d` computes, entry n = 4 i + j. */
  function Mul4(left: Mat4, right: Mat4): Mat4
  {
    seq(16, n requires 0 <= n < 16 => Convention4(left, right, n / 4, n % 4))
  }

  /**
   * `multiply_matrix4d`: a fresh 16-entry result, zero-filled, into which
   * the triple loop accumulates left[4 k + j] * right[4 i + k] for every
   * i, j and k.
   */
  method MultiplyMatrix4d(left: Mat4, right: Mat4) returns (result: Mat4)
    ensures result == Mul4(left, right)
  {
    var res := new real[16](_ => 0.0);
    ghost var target := Mul4(left, right);
    for i := 0 to 4
      invariant forall n :: 0 <= n < 16 ==> res[n] == if n < 4 * i then target[n] else 0.0
    {
      for j := 0 to 4
        invariant forall n :: 0 <= n < 16 ==> res[n] == if n < 4 * i + j then target[n] else 0.0
      {
        Mul4At(left, right, i, j);
        PartialSum4Complete(left, right, i, j);
        for k := 0 to 4
          invariant forall n :: 0 <= n < 16 && n != 4 * i + j ==>
            res[n] == if n < 4 * i + j then target[n] else 0.0
          invariant res[4 * i + j] == PartialSum4(left, right, i, j, k)
        {
          PartialSum4Step(left, right, i, j, k);
          res[4 * i + j] := res[4 * i + j] + left[4 * k + j] * right[4 * i + k];
        }
      }
    }
    result := res[..];
  }

  /** Entry (i, j) of a product, read back from the product sequence. */
  lemma Mul4At(left: Mat4, right: Mat4, i: nat, j: nat)
    requires i < 4 && j < 4
    ensures At4(Mul4(left, right), i, j) == Convention4(left, right, i, j)
  {
    assert (4 * i + j) / 4 == i && (4 * i + j) % 4 == j;
  }

  /** Two 4 x 4 matrices with the same entries are the same matrix. */
  lemma Mat4Ext(a: Mat4, b: Mat4)
    requires forall i, j :: 0 <= i < 4 && 0 <= j < 4 ==> At4(a, i, j) == At4(b, i, j)
    ensures a == b
  {
    forall n | 0 <= n < 16
      ensures a[n] == b[n]
    {
      assert At4(a, n / 4, n % 4) == At4(b, n / 4, n % 4);
    }
  }

  /** Entry (i, j) of a product with the identity on either side. */
  lemma Identity4Entry(m: Mat4, i: nat, j: nat)
    requires i < 4 && j < 4
    ensures Convention4(Identity4(), m, i, j) == At4(m, i, j) && Convention4(m, Identity4(), i, j) == At4(m, i, j)
  {
    if i == 0 && j == 0 {
    } else if i == 0 && j == 1 {
    } else if i == 0 && j == 2 {
    } else if i == 0 && j == 3 {
    } else if i == 1 && j == 0 {
    } else if i == 1 && j == 1 {
    } else if i == 1 && j == 2 {
    } else if i == 1 && j == 3 {
    } else if i == 2 && j == 0 {
    } else if i == 2 && j == 1 {
    } else if i == 2 && j == 2 {
    } else if i == 2 && j == 3 {
    } else if i == 3 && j == 0 {
    } else if i == 3 && j == 1 {
    } else if i == 3 && j == 2 {
    } else {
      assert i == 3 && j == 3;
    }
  }

  /** The 4 x 4 identity is neutral on both sides of the product. */
  lemma Identity4IsNeutral(m: Mat4)
    ensures Mul4(Identity4(), m) == m
    ensures Mul4(m, Identity4()) == m
  {
    forall i, j | 0 <= i < 4 && 0 <= j < 4
      ensures At4(Mul4(Identity4(), m), i, j) == At4(m, i, j)
      ensures At4(Mul4(m, Identity4()), i, j) == At4(m, i, j)
    {
      Mul4At(Identity4(), m, i, j);
      Mul4At(m, Identity4(), i, j);
      Identity4Entry(m, i, j);
    }
    Mat4Ext(Mul4(Identity4(), m), m);
    Mat4Ext(Mul4(m, Identity4()), m);
  }

  /** The sixteen entries of a translation matrix, one by one. */
  lemma Translation4Entries(d: (real, real, real))
    ensures var t := Translation4(d.0, d.1, d.2);
      && t[0] == 1.0 && t[1] == 0.0 && t[2] == 0.0 && t[3] == 0.0
      && t[4] == 0.0 && t[5] == 1.0 && t[6] == 0.0 && t[7] == 0.0
      && t[8] == 0.0 && t[9] == 0.0 && t[10] == 1.0 && t[11] == 0.0
      && t[12] == d.0 && t[13] == d.1 && t[14] == d.2 && t[15] == 1.0
  {
  }

  /** Entry (i, j) of the product of two translations. */
  lemma Translation4Entry(a: (real, real, real), b: (real, real, real), i: nat, j: nat)
    requires i < 4 && j < 4
    ensures Convention4(Translation4(a.0, a.1, a.2), Translation4(b.0, b.1, b.2), i, j)
            == At4(Translation4(a.0 + b.0, a.1 + b.1, a.2 + b.2), i, j)
  {
    Translation4Entries(a);
    Translation4Entries(b);
    Translation4Entries((a.0 + b.0, a.1 + b.1, a.2 + b.2));
    if i == 0 && j == 0 {
    } else if i == 0 && j == 1 {
    } else if i == 0 && j == 2 {
    } else if i == 0 && j == 3 {
    } else if i == 1 && j == 0 {
    } else if i == 1 && j == 1 {
    } else if i == 1 && j == 2 {
    } else if i == 1 && j == 3 {
    } else if i == 2 && j == 0 {
    } else if i == 2 && j == 1 {
    } else if i == 2 && j == 2 {
    } else if i == 2 && j == 3 {
    } else if i == 3 && j == 0 {
    } else if i == 3 && j == 1 {
    } else if i == 3 && j == 2 {
    } else {
      assert i == 3 && j == 3;
    }
  }

  /** Composing two translations translates by the sum. */
  lemma Translation4Composes(a: (real, real, real), b: (real, real, real))
    ensures Mul4(Translation4(a.0, a.1, a.2), Translation4(b.0, b.1, b.2))
            == Translation4(a.0 + b.0, a.1 + b.1, a.2 + b.2)
  {
    var ta, tb := Translation4(a.0, a.1, a.2), Translation4(b.0, b.1, b.2);
    var t := Translation4(a.0 + b.0, a.1 + b.1, a.2 + b.2);
    forall i, j | 0 <= i < 4 && 0 <= j < 4
      ensures At4(Mul4(ta, tb), i, j) == At4(t, i, j)
    {
      Mul4At(ta, tb, i, j);
      Translation4Entry(a, b, i, j);
    }
    Mat4Ext(Mul4(ta, tb), t);
  }

  /** The sixteen entries of a scaling matrix, one by one. */
  lemma Scaling4Entries(d: (real, real, real))
    ensures var m := Scaling4(d.0, d.1, d.2);
      && m[0] == d.0 && m[1] == 0.0 && m[2] == 0.0 && m[3] == 0.0
      && m[4] == 0.0 && m[5] == d.1 && m[6] == 0.0 && m[7] == 0.0
      && m[8] == 0.0 && m[9] == 0.0 && m[10] == d.2 && m[11] == 0.0
      && m[12] == 0.0 && m[13] == 0.0 && m[14] == 0.0 && m[15] == 1.0
  {
  }

  /** Entry (i, j) of the product of two scalings. */
  lemma Scaling4Entry(s: (real, real, real), t: (real, real, real), i: nat, j: nat)
    requires i < 4 && j < 4
    ensures Convention4(Scaling4(s.0, s.1, s.2), Scaling4(t.0, t.1, t.2), i, j)
            == At4(Scaling4(s.0 * t.0, s.1 * t.1, s.2 * t.2), i, j)
  {
    Scaling4Entries(s);
    Scaling4Entries(t);
    Scaling4Entries((s.0 * t.0, s.1 * t.1, s.2 * t.2));
    if i == 0 && j == 0 {
    } else if i == 0 && j == 1 {
    } else if i == 0 && j == 2 {
    } else if i == 0 && j == 3 {
    } else if i == 1 && j == 0 {
    } else if i == 1 && j == 1 {
    } else if i == 1 && j == 2 {
    } else if i == 1 && j == 3 {
    } else if i == 2 && j == 0 {
    } else if i == 2 && j == 1 {
    } else if i == 2 && j == 2 {
    } else if i == 2 && j == 3 {
    } else if i == 3 && j == 0 {
    } else if i == 3 && j == 1 {
    } else if i == 3 && j == 2 {
    } else {
      assert i == 3 && j == 3;
    }
  }

  /** Composing two scalings scales by the product. */
  lemma Scaling4Composes(s: (real, real, real), t: (real, real, real))
    ensures Mul4(Scaling4(s.0, s.1, s.2), Scaling4(t.0, t.1, t.2))
            == Scaling4(s.0 * t.0, s.1 * t.1, s.2 * t.2)
  {
    var ss, st := Scaling4(s.0, s.1, s.2), Scaling4(t.0, t.1, t.2);
    var p := Scaling4(s.0 * t.0, s.1 * t.1, s.2 * t.2);
    forall i, j | 0 <= i < 4 && 0 <= j < 4
      ensures At4(Mul4(ss, st), i, j) == At4(p, i, j)
    {
      Mul4At(ss, st, i, j);
      Scaling4Entry(s, t, i, j);
    }
    Mat4Ext(Mul4(ss, st), p);
  }

  // ------------------------------------------------- matrix times vector

  /**
   * `matrix_vector_multiply4d(m, v)` as written: output r is
   * v0 m[4 r] + v1 m[4 r + 1] + v2 m[4 r + 2] + m[4 r + 3], reading the
   * flat matrix row by row with an implicit fourth component w = 1.
   */
  function MatVec4AsWritten(m: Mat4, v: seq<real>): (r: seq<real>)
    requires |v| >= 3
    ensures |r| == 4
  {
    seq(4, row requires 0 <= row < 4 =>
      v[0] * m[4 * row] + v[1] * m[4 * row + 1] + v[2] * m[4 * row + 2] + m[4 * row + 3])
  }

  /** The identity sends v to (v0, v1, v2, 1). */
  lemma MatVec4IdentityAsWritten(v: seq<real>)
    requires |v| >= 3
    ensures MatVec4AsWritten(Identity4(), v) == [v[0], v[1], v[2], 1.0]
  {
  }

  /**
   * Under the library's own layout the translation sits in entries 12..14,
   * so the as-written product does not move a point: translating (x, y, z)
   * by (dx, dy, dz) leaves its first three coordinates unchanged.
   */
  lemma MatVec4AsWrittenIgnoresTranslation(d: (real, real, real), v: seq<real>)
    requires |v| >= 3
    ensures MatVec4AsWritten(Translation4(d.0, d.1, d.2), v)
            == [v[0], v[1], v[2], v[0] * d.0 + v[1] * d.1 + v[2] * d.2 + 1.0]
  {
    var r := MatVec4AsWritten(Translation4(d.0, d.1, d.2), v);
    assert r[0] == v[0] && r[1] == v[1] && r[2] == v[2];
    assert r[3] == v[0] * d.0 + v[1] * d.1 + v[2] * d.2 + 1.0;
  }

  /**
   * The product consistent with `multiply_matrix4d`'s layout: output r is
   * the sum over c of m[4 c + r] * (v0, v1, v2, 1)[c].
   */
  function MatVec4(m: Mat4, v: seq<real>): (r: seq<real>)
    requires |v| >= 3
    ensures |r| == 4
  {
    seq(4, row requires 0 <= row < 4 =>
      v[0] * m[row] + v[1] * m[4 + row] + v[2] * m[8 + row] + m[12 + row])
  }

  /** The identity still sends v to (v0, v1, v2, 1). */
  lemma MatVec4Identity(v: seq<real>)
    requires |v| >= 3
    ensures MatVec4(Identity4(), v) == [v[0], v[1], v[2], 1.0]
  {
    var r := MatVec4(Identity4(), v);
    assert r[0] == v[0];
    assert r[1] == v[1];
    assert r[2] == v[2];
    assert r[3] == 1.0;
  }

  /** A translation matrix moves a point by its offset. */
  lemma MatVec4Translates(d: (real, real, real), v: seq<real>)
    requires |v| >= 3
    ensures MatVec4(Translation4(d.0, d.1, d.2), v) == [v[0] + d.0, v[1] + d.1, v[2] + d.2, 1.0]
  {
    var r := MatVec4(Translation4(d.0, d.1, d.2), v);
    assert r[0] == v[0] + d.0;
    assert r[1] == v[1] + d.1;
    assert r[2] == v[2] + d.2;
    assert r[3] == 1.0;
  }

  /**
   * Distributing the three coordinates and w = 1 over the four terms of
   * each sum, when b keeps the fourth coordinate at 1.
   */
  lemma Regroup(v0: real, v1: real, v2: real, a0: real, a1: real, a2: real, a3: real, b: Mat4)
    requires b[3] == 0.0 && b[7] == 0.0 && b[11] == 0.0 && b[15] == 1.0
    ensures v0 * (a0 * b[0] + a1 * b[1] + a2 * b[2] + a3 * b[3])
            + v1 * (a0 * b[4] + a1 * b[5] + a2 * b[6] + a3 * b[7])
            + v2 * (a0 * b[8] + a1 * b[9] + a2 * b[10] + a3 * b[11])
            + (a0 * b[12] + a1 * b[13] + a2 * b[14] + a3 * b[15])
         == (v0 * b[0] + v1 * b[4] + v2 * b[8] + b[12]) * a0
            + (v0 * b[1] + v1 * b[5] + v2 * b[9] + b[13]) * a1
            + (v0 * b[2] + v1 * b[6] + v2 * b[10] + b[14]) * a2
            + a3
  {
  }

  /** The entries of row `row` of the product, written out. */
  lemma ProductRowEntries(a: Mat4, b: Mat4, row: nat)
    requires row < 4
    ensures var ab := Mul4(a, b);
      && ab[row] == a[row] * b[0] + a[4 + row] * b[1] + a[8 + row] * b[2] + a[12 + row] * b[3]
      && ab[4 + row] == a[row] * b[4] + a[4 + row] * b[5] + a[8 + row] * b[6] + a[12 + row] * b[7]
      && ab[8 + row] == a[row] * b[8] + a[4 + row] * b[9] + a[8 + row] * b[10] + a[12 + row] * b[11]
      && ab[12 + row] == a[row] * b[12] + a[4 + row] * b[13] + a[8 + row] * b[14] + a[12 + row] * b[15]
  {
    Mul4At(a, b, 0, row);
    Mul4At(a, b, 1, row);
    Mul4At(a, b, 2, row);
    Mul4At(a, b, 3, row);
  }

  /** Row `row` of a matrix applied to v, read off `MatVec4`. */
  lemma AppliedRow(m: Mat4, v: seq<real>, row: nat)
    requires |v| >= 3 && row < 4
    ensures MatVec4(m, v)[row] == v[0] * m[row] + v[1] * m[4 + row] + v[2] * m[8 + row] + m[12 + row]
  {
  }

  /** The first three coordinates of a matrix applied to v, read off `MatVec4`. */
  lemma AppliedRows(m: Mat4, v: seq<real>)
    requires |v| >= 3
    ensures var r := MatVec4(m, v);
      && r[0] == v[0] * m[0] + v[1] * m[4] + v[2] * m[8] + m[12]
      && r[1] == v[0] * m[1] + v[1] * m[5] + v[2] * m[9] + m[13]
      && r[2] == v[0] * m[2] + v[1] * m[6] + v[2] * m[10] + m[14]
  {
  }

  /**
   * The regrouping of one row, with the product's row entries `p` and the
   * image coordinates `q` as plain reals.
   */
  lemma RegroupRow(v0: real, v1: real, v2: real, a0: real, a1: real, a2: real, a3: real, b: Mat4,
                   p0: real, p1: real, p2: real, p3: real, q0: real, q1: real, q2: real)
    requires b[3] == 0.0 && b[7] == 0.0 && b[11] == 0.0 && b[15] == 1.0
    requires p0 == a0 * b[0] + a1 * b[1] + a2 * b[2] + a3 * b[3]
    requires p1 == a0 * b[4] + a1 * b[5] + a2 * b[6] + a3 * b[7]
    requires p2 == a0 * b[8] + a1 * b[9] + a2 * b[10] + a3 * b[11]
    requires p3 == a0 * b[12] + a1 * b[13] + a2 * b[14] + a3 * b[15]
    requires q0 == v0 * b[0] + v1 * b[4] + v2 * b[8] + b[12]
    requires q1 == v0 * b[1] + v1 * b[5] + v2 * b[9] + b[13]
    requires q2 == v0 * b[2] + v1 * b[6] + v2 * b[10] + b[14]
    ensures v0 * p0 + v1 * p1 + v2 * p2 + p3 == q0 * a0 + q1 * a1 + q2 * a2 + a3
  {
    Regroup(v0, v1, v2, a0, a1, a2, a3, b);
  }

  /**
   * Row `row` of the composition law below, for any matrix `ab` whose
   * entries in that row are those of the product of a and b.
   */
  lemma ComposedRow(a: Mat4, b: Mat4, ab: Mat4, v: seq<real>, row: nat)
    requires |v| >= 3 && row < 4
    requires b[3] == 0.0 && b[7] == 0.0 && b[11] == 0.0 && b[15] == 1.0
    requires ab[row] == a[row] * b[0] + a[4 + row] * b[1] + a[8 + row] * b[2] + a[12 + row] * b[3]
    requires ab[4 + row] == a[row] * b[4] + a[4 + row] * b[5] + a[8 + row] * b[6] + a[12 + row] * b[7]
    requires ab[8 + row] == a[row] * b[8] + a[4 + row] * b[9] + a[8 + row] * b[10] + a[12 + row] * b[11]
    requires ab[12 + row] == a[row] * b[12] + a[4 + row] * b[13] + a[8 + row] * b[14] + a[12 + row] * b[15]
    ensures MatVec4(ab, v)[row] == MatVec4(a, MatVec4(b, v))[row]
  {
    var bv := MatVec4(b, v);
    AppliedRows(b, v);
    RegroupRow(v[0], v[1], v[2], a[row], a[4 + row], a[8 + row], a[12 + row], b,
               ab[row], ab[4 + row], ab[8 + row], ab[12 + row], bv[0], bv[1], bv[2]);
    AppliedRow(ab, v, row);
    AppliedRow(a, bv, row);
  }

  /** Row `row` of the composition law below. */
  lemma MatVec4ProductRow(a: Mat4, b: Mat4, v: seq<real>, row: nat)
    requires |v| >= 3 && row < 4
    requires b[3] == 0.0 && b[7] == 0.0 && b[11] == 0.0 && b[15] == 1.0
    ensures MatVec4(Mul4(a, b), v)[row] == MatVec4(a, MatVec4(b, v))[row]
  {
    ProductRowEntries(a, b, row);
    ComposedRow(a, b, Mul4(a, b), v, row);
  }

  /**
   * Applying a product is applying the right operand, then the left one:
   * MatVec4(Mul4(a, b), v) is a applied to b applied to v, whenever b keeps
   * the fourth coordinate at 1.
   */
  lemma MatVec4OfProduct(a: Mat4, b: Mat4, v: seq<real>)
    requires |v| >= 3
    requires b[3] == 0.0 && b[7] == 0.0 && b[11] == 0.0 && b[15] == 1.0
    ensures MatVec4(Mul4(a, b), v) == MatVec4(a, MatVec4(b, v))
  {
    forall row | 0 <= row < 4
      ensures MatVec4(Mul4(a, b), v)[row] == MatVec4(a, MatVec4(b, v))[row]
    {
      MatVec4ProductRow(a, b, v, row);
    }
  }
}
