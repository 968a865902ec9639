/**
 * The UV-sphere mesh of the WebGL helper library. The sphere is cut into
 * `zenithSlices` bands from pole to pole and `azimuthSlices` sectors around
 * the z axis; vertex (i, j), for i <= zenithSlices and j <= azimuthSlices,
 * sits at zenith angle i * pi / zenithSlices and azimuth angle
 * j * 2 pi / azimuthSlices, and is stored as six numbers: its position and
 * its unit normal. Vertex (i, j) has number i * (azimuthSlices + 1) + j.
 * Each quad between bands i and i + 1 becomes two triangles, except that
 * the band touching a pole keeps only the triangle that does not collapse.
 *
 * Sine, cosine and pi are parameters.
 */
module Sphere {

  // ------------------------------------------------------------- indices

  /** The triangles of quad (i, j): up to six vertex numbers. */
  function Quad(i: nat, j: nat, azimuthSlices: nat, zenithSlices: nat): seq<nat>
  {
    var k1 := i * (azimuthSlices + 1) + j;
    var k2 := k1 + azimuthSlices + 1;
    (if i != 0 then [k1, k2, k1 + 1] else [])
    + (if i != zenithSlices - 1 then [k1 + 1, k2, k2 + 1] else [])
  }

  /** The triangles of the first `count` quads of band i. */
  function BandIndices(i: nat, azimuthSlices: nat, zenithSlices: nat, count: nat): seq<nat>
  {
    if count == 0 then []
    else BandIndices(i, azimuthSlices, zenithSlices, count - 1) + Quad(i, count - 1, azimuthSlices, zenithSlices)
  }

  /** The triangles of the first `bands` bands. */
  function BandsIndices(azimuthSlices: nat, zenithSlices: nat, bands: nat): seq<nat>
  {
    if bands == 0 then []
    else BandsIndices(azimuthSlices, zenithSlices, bands - 1) + BandIndices(bands - 1, azimuthSlices, zenithSlices, azimuthSlices)
  }

  /** The index list of the whole sphere. */
  function SphereIndices(azimuthSlices: nat, zenithSlices: nat): seq<nat>
  {
    BandsIndices(azimuthSlices, zenithSlices, zenithSlices)
  }

  /**
   * `generate_sphere_indices`: k1 runs along band i and k2 along band
   * i + 1; the first triangle is skipped on band 0 and the second on the
   * last band.
   */
  method GenerateSphereIndices(azimuthSlices: nat, zenithSlices: nat) returns (indices: seq<nat>)
    ensures indices == SphereIndices(azimuthSlices, zenithSlices)
  {
    indices := [];
    for i := 0 to zenithSlices
      invariant indices == BandsIndices(azimuthSlices, zenithSlices, i)
    {
      indices := PushBand(indices, i, azimuthSlices, zenithSlices);
    }
  }

  /** The inner loop of `generate_sphere_indices`: appends band i's triangles. */
  method PushBand(indices: seq<nat>, i: nat, azimuthSlices: nat, zenithSlices: nat) returns (result: seq<nat>)
    ensures result == indices + BandIndices(i, azimuthSlices, zenithSlices, azimuthSlices)
  {
    result := indices;
    var k1 := i * (azimuthSlices + 1);
    var k2 := k1 + azimuthSlices + 1;
    for j := 0 to azimuthSlices
      invariant k1 == i * (azimuthSlices + 1) + j && k2 == k1 + azimuthSlices + 1
      invariant result == indices + BandIndices(i, azimuthSlices, zenithSlices, j)
    {
      ghost var before := result;
      if i != 0 {
        result := result + [k1, k2, k1 + 1];
      }
      if i != zenithSlices - 1 {
        result := result + [k1 + 1, k2, k2 + 1];
      }
      assert result == before + Quad(i, j, azimuthSlices, zenithSlices);
      k1 := k1 + 1;
      k2 := k2 + 1;
    }
  }

  /** The number of indices a quad of band i contributes. */
  function QuadSize(i: nat, zenithSlices: nat): nat
  {
    (if i != 0 then 3 else 0) + (if i != zenithSlices - 1 then 3 else 0)
  }

  lemma {:induction false} BandLength(i: nat, azimuthSlices: nat, zenithSlices: nat, count: nat)
    ensures |BandIndices(i, azimuthSlices, zenithSlices, count)| == count * QuadSize(i, zenithSlices)
  {
    if count > 0 {
      BandLength(i, azimuthSlices, zenithSlices, count - 1);
      assert count * QuadSize(i, zenithSlices) == (count - 1) * QuadSize(i, zenithSlices) + QuadSize(i, zenithSlices);
    }
  }

  /**
   * The first `bands` bands, 1 <= bands <= zenithSlices: band 0 and the
   * last band hold three indices per quad, every other band six.
   */
  lemma {:induction false} BandsLength(azimuthSlices: nat, zenithSlices: nat, bands: nat)
    requires 1 <= bands <= zenithSlices
    ensures |BandsIndices(azimuthSlices, zenithSlices, bands)|
            == 6 * azimuthSlices * bands - 3 * azimuthSlices - (if bands == zenithSlices then 3 * azimuthSlices else 0)
  {
    var a := azimuthSlices;
    BandLength(bands - 1, a, zenithSlices, a);
    if bands == 1 {
      assert BandsIndices(a, zenithSlices, 1) == BandIndices(0, a, zenithSlices, a);
    } else {
      BandsLength(a, zenithSlices, bands - 1);
      assert 6 * a * bands == 6 * a * (bands - 1) + 6 * a;
    }
  }

  /** With at least one band, the sphere has 6 A (Z - 1) indices. */
  lemma IndexCount(azimuthSlices: nat, zenithSlices: nat)
    requires zenithSlices >= 1
    ensures |SphereIndices(azimuthSlices, zenithSlices)| == 6 * azimuthSlices * (zenithSlices - 1)
  {
    BandsLength(azimuthSlices, zenithSlices, zenithSlices);
    assert 6 * azimuthSlices * (zenithSlices - 1) == 6 * azimuthSlices * zenithSlices - 6 * azimuthSlices;
  }

  /** The number of vertices of the sphere. */
  function VertexCount(azimuthSlices: nat, zenithSlices: nat): nat
  {
    (zenithSlices + 1) * (azimuthSlices + 1)
  }

  predicate AllBelow(s: seq<nat>, bound: nat)
  {
    forall k :: 0 <= k < |s| ==> s[k] < bound
  }

  lemma {:induction false} MulMonotone(a: nat, b: nat, c: nat)
    requires a <= b
    ensures a * c <= b * c
  {
    if a < b {
      MulMonotone(a, b - 1, c);
      assert b * c == (b - 1) * c + c;
    }
  }

  lemma QuadBelow(i: nat, j: nat, azimuthSlices: nat, zenithSlices: nat)
    requires i < zenithSlices && j < azimuthSlices
    ensures AllBelow(Quad(i, j, azimuthSlices, zenithSlices), VertexCount(azimuthSlices, zenithSlices))
  {
    var w := azimuthSlices + 1;
    var k1 := i * w + j;
    assert k1 + w + 1 < (zenithSlices + 1) * w by {
      MulMonotone(i + 2, zenithSlices + 1, w);
      assert (i + 2) * w == i * w + 2 * w;
    }
  }

  lemma {:induction false} BandBelow(i: nat, azimuthSlices: nat, zenithSlices: nat, count: nat)
    requires i < zenithSlices && count <= azimuthSlices
    ensures AllBelow(BandIndices(i, azimuthSlices, zenithSlices, count), VertexCount(azimuthSlices, zenithSlices))
  {
    if count > 0 {
      BandBelow(i, azimuthSlices, zenithSlices, count - 1);
      QuadBelow(i, count - 1, azimuthSlices, zenithSlices);
    }
  }

  lemma {:induction false} BandsBelow(azimuthSlices: nat, zenithSlices: nat, bands: nat)
    requires bands <= zenithSlices
    ensures AllBelow(BandsIndices(azimuthSlices, zenithSlices, bands), VertexCount(azimuthSlices, zenithSlices))
  {
    if bands > 0 {
      BandsBelow(azimuthSlices, zenithSlices, bands - 1);
      BandBelow(bands - 1, azimuthSlices, zenithSlices, azimuthSlices);
    }
  }

  /** Every index names one of the (Z + 1)(A + 1) vertices. */
  lemma IndicesInRange(azimuthSlices: nat, zenithSlices: nat)
    ensures AllBelow(SphereIndices(azimuthSlices, zenithSlices), VertexCount(azimuthSlices, zenithSlices))
  {
    BandsBelow(azimuthSlices, zenithSlices, zenithSlices);
  }

  // ------------------------------------------------------------ vertices

  /**
   * The angle step: pi / slices for the zenith and 2 pi / slices for the
   * azimuth. With no slices only the angle 0 is used, so the step is
   * immaterial there and is taken as 0.
   */
  function AngleStep(sweep: real, slices: nat): real
  {
    if slices == 0 then 0.0 else sweep / (slices as real)
  }

  /** Position and normal of the vertex at the given zenith and azimuth angles. */
  function Vertex(radius: real, zenith: real, azimuth: real, sin: real -> real, cos: real -> real): (v: seq<real>)
    requires radius != 0.0
    ensures |v| == 6
  {
    var xyProj := radius * sin(zenith);
    var z := radius * cos(zenith);
    var x := xyProj * cos(azimuth);
    var y := xyProj * sin(azimuth);
    var inverseRadius := 1.0 / radius;
    [x, y, z, x * inverseRadius, y * inverseRadius, z * inverseRadius]
  }

  /** The vertices of the first `count` positions of ring i. */
  function RingVertices(radius: real, azimuthSlices: nat, zenithSlices: nat, i: nat, count: nat,
                        sin: real -> real, cos: real -> real, pi: real): seq<real>
    requires radius != 0.0
  {
    if count == 0 then []
    else RingVertices(radius, azimuthSlices, zenithSlices, i, count - 1, sin, cos, pi)
         + Vertex(radius, (i as real) * AngleStep(pi, zenithSlices),
                  ((count - 1) as real) * AngleStep(2.0 * pi, azimuthSlices), sin, cos)
  }

  /** The vertices of the first `rings` rings. */
  function RingsVertices(radius: real, azimuthSlices: nat, zenithSlices: nat, rings: nat,
                         sin: real -> real, cos: real -> real, pi: real): seq<real>
    requires radius != 0.0
  {
    if rings == 0 then []
    else RingsVertices(radius, azimuthSlices, zenithSlices, rings - 1, sin, cos, pi)
         + RingVertices(radius, azimuthSlices, zenithSlices, rings - 1, azimuthSlices + 1, sin, cos, pi)
  }

  /**
   * `generate_sphere_vertices`: both angles are accumulated by repeated
   * addition of their step, as `generate_sphere_vertices` does, and each
   * vertex appends its six numbers.
   */
  method GenerateSphereVertices(radius: real, azimuthSlices: nat, zenithSlices: nat,
                                sin: real -> real, cos: real -> real, pi: real)
    returns (vertices: seq<real>)
    requires radius != 0.0
    ensures vertices == RingsVertices(radius, azimuthSlices, zenithSlices, zenithSlices + 1, sin, cos, pi)
  {
    var dZenith := AngleStep(pi, zenithSlices);
    vertices := [];
    var zenith := 0.0;
    for i := 0 to zenithSlices + 1
      invariant zenith == (i as real) * dZenith
      invariant vertices == RingsVertices(radius, azimuthSlices, zenithSlices, i, sin, cos, pi)
    {
      vertices := PushRing(vertices, radius, azimuthSlices, zenithSlices, i, zenith, sin, cos, pi);
      RingsStep(radius, azimuthSlices, zenithSlices, i, sin, cos, pi);
      assert ((i + 1) as real) * dZenith == (i as real) * dZenith + dZenith;
      zenith := zenith + dZenith;
    }
  }

  /** The inner loop of `generate_sphere_vertices`: ring i at the given zenith angle. */
  method PushRing(vertices: seq<real>, radius: real, azimuthSlices: nat, zenithSlices: nat, i: nat,
                  zenith: real, sin: real -> real, cos: real -> real, pi: real)
    returns (result: seq<real>)
    requires radius != 0.0
    requires zenith == (i as real) * AngleStep(pi, zenithSlices)
    ensures result == vertices + RingVertices(radius, azimuthSlices, zenithSlices, i, azimuthSlices + 1, sin, cos, pi)
  {
    var dAzimuth := AngleStep(2.0 * pi, azimuthSlices);
    result := vertices;
    var azimuth := 0.0;
    for j := 0 to azimuthSlices + 1
      invariant azimuth == (j as real) * dAzimuth
      invariant result == vertices + RingVertices(radius, azimuthSlices, zenithSlices, i, j, sin, cos, pi)
    {
      RingStep(radius, azimuthSlices, zenithSlices, i, j, sin, cos, pi);
      ghost var ring := RingVertices(radius, azimuthSlices, zenithSlices, i, j, sin, cos, pi);
      var v := Vertex(radius, zenith, azimuth, sin, cos);
      assert azimuth == (j as real) * AngleStep(2.0 * pi, azimuthSlices);
      assert v == Vertex(radius, (i as real) * AngleStep(pi, zenithSlices),
                         (j as real) * AngleStep(2.0 * pi, azimuthSlices), sin, cos);
      assert vertices + ring + v == vertices + (ring + v);
      result := result + v;
      assert ((j + 1) as real) * dAzimuth == (j as real) * dAzimuth + dAzimuth;
      azimuth := azimuth + dAzimuth;
    }
  }

  /** One more vertex of ring i. */
  lemma RingStep(radius: real, azimuthSlices: nat, zenithSlices: nat, i: nat, j: nat,
                 sin: real -> real, cos: real -> real, pi: real)
    requires radius != 0.0
    ensures RingVertices(radius, azimuthSlices, zenithSlices, i, j + 1, sin, cos, pi)
            == RingVertices(radius, azimuthSlices, zenithSlices, i, j, sin, cos, pi)
               + Vertex(radius, (i as real) * AngleStep(pi, zenithSlices),
                        (j as real) * AngleStep(2.0 * pi, azimuthSlices), sin, cos)
  {
  }

  /** One more ring. */
  lemma RingsStep(radius: real, azimuthSlices: nat, zenithSlices: nat, i: nat,
                  sin: real -> real, cos: real -> real, pi: real)
    requires radius != 0.0
    ensures RingsVertices(radius, azimuthSlices, zenithSlices, i + 1, sin, cos, pi)
            == RingsVertices(radius, azimuthSlices, zenithSlices, i, sin, cos, pi)
               + RingVertices(radius, azimuthSlices, zenithSlices, i, azimuthSlices + 1, sin, cos, pi)
  {
  }

  lemma {:induction false} RingLength(radius: real, azimuthSlices: nat, zenithSlices: nat, i: nat, count: nat,
                                      sin: real -> real, cos: real -> real, pi: real)
    requires radius != 0.0
    ensures |RingVertices(radius, azimuthSlices, zenithSlices, i, count, sin, cos, pi)| == 6 * count
  {
    if count > 0 {
      RingLength(radius, azimuthSlices, zenithSlices, i, count - 1, sin, cos, pi);
    }
  }

  lemma {:induction false} RingsLength(radius: real, azimuthSlices: nat, zenithSlices: nat, rings: nat,
                                       sin: real -> real, cos: real -> real, pi: real)
    requires radius != 0.0
    ensures |RingsVertices(radius, azimuthSlices, zenithSlices, rings, sin, cos, pi)| == rings * (6 * (azimuthSlices + 1))
  {
    if rings > 0 {
      RingsLength(radius, azimuthSlices, zenithSlices, rings - 1, sin, cos, pi);
      RingLength(radius, azimuthSlices, zenithSlices, rings - 1, azimuthSlices + 1, sin, cos, pi);
      MulStep(rings - 1, 6 * (azimuthSlices + 1));
    }
  }

  /**
   * The vertex array holds six numbers for each of the (Z + 1)(A + 1)
   * vertices, so every index of `SphereIndices` names a stored vertex.
   */
  lemma VertexArrayLength(radius: real, azimuthSlices: nat, zenithSlices: nat,
                          sin: real -> real, cos: real -> real, pi: real)
    requires radius != 0.0
    ensures |RingsVertices(radius, azimuthSlices, zenithSlices, zenithSlices + 1, sin, cos, pi)|
            == 6 * VertexCount(azimuthSlices, zenithSlices)
  {
    RingsLength(radius, azimuthSlices, zenithSlices, zenithSlices + 1, sin, cos, pi);
    assert (zenithSlices + 1) * (6 * (azimuthSlices + 1)) == 6 * ((zenithSlices + 1) * (azimuthSlices + 1));
  }

  /** One more row of w entries. */
  lemma MulStep(a: nat, w: nat)
    ensures (a + 1) * w == a * w + w
  {
  }

  /**
   * Whenever sine and cosine satisfy sin^2 + cos^2 = 1, every vertex lies on
   * the sphere of the given radius and its normal has length 1.
   */
  lemma VertexOnSphere(radius: real, zenith: real, azimuth: real, sin: real -> real, cos: real -> real)
    requires radius != 0.0
    requires forall t :: sin(t) * sin(t) + cos(t) * cos(t) == 1.0
    ensures var v := Vertex(radius, zenith, azimuth, sin, cos);
            v[0] * v[0] + v[1] * v[1] + v[2] * v[2] == radius * radius
    ensures var v := Vertex(radius, zenith, azimuth, sin, cos);
            v[3] * v[3] + v[4] * v[4] + v[5] * v[5] == 1.0
  {
    var v := Vertex(radius, zenith, azimuth, sin, cos);
    var sz, cz, sa, ca := sin(zenith), cos(zenith), sin(azimuth), cos(azimuth);
    var p := radius * sz;
    assert sz * sz + cz * cz == 1.0 && sa * sa + ca * ca == 1.0;
    assert v[0] * v[0] + v[1] * v[1] == p * p * (ca * ca + sa * sa);
    assert v[0] * v[0] + v[1] * v[1] == p * p;
    assert p * p + v[2] * v[2] == radius * radius * (sz * sz + cz * cz);
    var q := 1.0 / radius;
    assert v[3] * v[3] + v[4] * v[4] + v[5] * v[5] == (v[0] * v[0] + v[1] * v[1] + v[2] * v[2]) * (q * q);
    assert radius * radius * (q * q) == (radius * q) * (radius * q);
  }
}
