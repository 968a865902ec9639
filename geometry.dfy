/**
 * The 3-D geometry page: a sphere placed by a model matrix built from a
 * position and a per-axis scale, and six sliders that each set one
 * component of the position or of the scale and rebuild the model matrix.
 */
module Geometry {
  import opened Matrices
  import opened Vectors

  /**
   * `generate_model_matrix(scale, translation)`: the scaling matrix
   * multiplied on the left by the translation matrix, in the library's
   * product convention.
   */
  function ModelMatrix(scale: Vec3, translation: Vec3): Mat4
  {
    Mul4(Translation4(translation[0], translation[1], translation[2]), Scaling4(scale[0], scale[1], scale[2]))
  }

  /** The model matrix written out: the scale on the diagonal, the translation in the last row. */
  function ScaleThenTranslate(scale: Vec3, translation: Vec3): Mat4
  {
    [scale[0], 0.0, 0.0, 0.0,
     0.0, scale[1], 0.0, 0.0,
     0.0, 0.0, scale[2], 0.0,
     translation[0], translation[1], translation[2], 1.0]
  }

  lemma ModelEntry(scale: Vec3, translation: Vec3, i: nat, j: nat)
    requires i < 4 && j < 4
    ensures Convention4(Translation4(translation[0], translation[1], translation[2]),
                        Scaling4(scale[0], scale[1], scale[2]), i, j)
            == At4(ScaleThenTranslate(scale, translation), i, j)
  {
    if i == 0 && j == 0 {
    } else if i == 0 && j == 1 {
    } else if i == 0 && j == 2 {
    } else if i == 0 && j == 3 {
    } else if i == 1 && j == 0 {
    } else if i == 1 && j == 1 {
    } else if i == 1 && j == 2 {
    } else if i == 1 && j == 3 {
    } else if i == 2 && j == 0 {
    } else if i == 2 && j == 1 {
    } else if i == 2 && j == 2 {
    } else if i == 2 && j == 3 {
    } else if i == 3 && j == 0 {
    } else if i == 3 && j == 1 {
    } else if i == 3 && j == 2 {
    } else {
      assert i == 3 && j == 3;
    }
  }

  /** The model matrix scales by `scale` and then translates by `translation`. */
  lemma ModelMatrixIsScaleThenTranslate(scale: Vec3, translation: Vec3)
    ensures ModelMatrix(scale, translation) == ScaleThenTranslate(scale, translation)
  {
    var t := Translation4(translation[0], translation[1], translation[2]);
    var s := Scaling4(scale[0], scale[1], scale[2]);
    forall i, j | 0 <= i < 4 && 0 <= j < 4
      ensures At4(Mul4(t, s), i, j) == At4(ScaleThenTranslate(scale, translation), i, j)
    {
      Mul4At(t, s, i, j);
      ModelEntry(scale, translation, i, j);
    }
    Mat4Ext(Mul4(t, s), ScaleThenTranslate(scale, translation));
  }

  /** With unit scale the model matrix is the translation matrix. */
  lemma UnitScaleIsTranslation(translation: Vec3)
    ensures ModelMatrix([1.0, 1.0, 1.0], translation) == Translation4(translation[0], translation[1], translation[2])
  {
    ModelMatrixIsScaleThenTranslate([1.0, 1.0, 1.0], translation);
  }

  /** At the origin the model matrix is the scaling matrix. */
  lemma OriginIsScaling(scale: Vec3)
    ensures ModelMatrix(scale, [0.0, 0.0, 0.0]) == Scaling4(scale[0], scale[1], scale[2])
  {
    ModelMatrixIsScaleThenTranslate(scale, [0.0, 0.0, 0.0]);
  }

  /** Applied to a point, the model matrix scales each coordinate and then adds the position. */
  lemma ModelMovesPoint(scale: Vec3, translation: Vec3, p: Vec3)
    ensures MatVec4(ModelMatrix(scale, translation), p)
            == [scale[0] * p[0] + translation[0], scale[1] * p[1] + translation[1],
                scale[2] * p[2] + translation[2], 1.0]
  {
    ModelMatrixIsScaleThenTranslate(scale, translation);
    var r := MatVec4(ScaleThenTranslate(scale, translation), p);
    assert r[0] == p[0] * scale[0] + translation[0];
    assert r[1] == p[1] * scale[1] + translation[1];
    assert r[2] == p[2] * scale[2] + translation[2];
  }

  class Scene {
    const spherePosition: array<real>
    const sphereScaling: array<real>
    var model: Mat4

    /** The model matrix always matches the current position and scale. */
    predicate Valid()
      reads this, spherePosition, sphereScaling
    {
      spherePosition.Length == 3 && sphereScaling.Length == 3
      && spherePosition != sphereScaling
      && model == ModelMatrix(sphereScaling[..], spherePosition[..])
    }

    /** The sphere starts at the origin with unit scale, so its model matrix is the identity. */
    constructor ()
      ensures Valid() && fresh(spherePosition) && fresh(sphereScaling)
      ensures spherePosition[..] == [0.0, 0.0, 0.0] && sphereScaling[..] == [1.0, 1.0, 1.0]
      ensures model == Identity4()
    {
      var position := new real[3](_ => 0.0);
      var scaling := new real[3](_ => 1.0);
      spherePosition := position;
      sphereScaling := scaling;
      model := ModelMatrix(scaling[..], position[..]);
      ModelMatrixIsScaleThenTranslate(scaling[..], position[..]);
    }

    /**
     * A position slider (x, y or z, as `axis` 0, 1 or 2) moved to `value`:
     * that component of the position is replaced and the model matrix is
     * rebuilt.
     */
    method SetPosition(axis: nat, value: real)
      requires Valid() && axis < 3
      modifies this, spherePosition
      ensures Valid()
      ensures spherePosition[axis] == value
      ensures forall k :: 0 <= k < 3 && k != axis ==> spherePosition[k] == old(spherePosition[k])
      ensures sphereScaling[..] == old(sphereScaling[..])
      ensures model == ScaleThenTranslate(sphereScaling[..], spherePosition[..])
    {
      spherePosition[axis] := value;
      model := ModelMatrix(sphereScaling[..], spherePosition[..]);
      ModelMatrixIsScaleThenTranslate(sphereScaling[..], spherePosition[..]);
    }

    /**
     * A scale slider (x, y or z, as `axis` 0, 1 or 2) moved to `value`:
     * that component of the scale is replaced and the model matrix is
     * rebuilt.
     */
    method SetScale(axis: nat, value: real)
      requires Valid() && axis < 3
      modifies this, sphereScaling
      ensures Valid()
      ensures sphereScaling[axis] == value
      ensures forall k :: 0 <= k < 3 && k != axis ==> sphereScaling[k] == old(sphereScaling[k])
      ensures spherePosition[..] == old(spherePosition[..])
      ensures model == ScaleThenTranslate(sphereScaling[..], spherePosition[..])
    {
      sphereScaling[axis] := value;
      model := ModelMatrix(sphereScaling[..], spherePosition[..]);
      ModelMatrixIsScaleThenTranslate(sphereScaling[..], spherePosition[..]);
    }
  }
}
