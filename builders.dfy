/**
 * The mesh builders of the project main files: counted loops that push
 * vertices into a mesh. The trigonometry (`Math.cos`/`Math.sin` of the step
 * angle) and `HSVtoRGB` are not modelled as arithmetic; they are the
 * parameters `Ring.rim` and `Ring.hue`, so the vertex counts, the order of
 * the vertices and which step each one comes from are exact.
 */
module Builders {
  import opened Common
  import opened Meshes

  /**
   * What the builders compute at step `i` of an `n`-part circle:
   * `rim(i)` is (cos 2πi/n, sin 2πi/n, 0), `hue(i)` is `HSVtoRGB(i/n, 1, 1)`
   * and `invHue(i)` is `HSVtoRGB(1 - i/n, 1, 1)`.
   */
  datatype Ring = Ring(rim: nat -> Vec3, hue: nat -> Vec3, invHue: nat -> Vec3)

  /** The point above a rim point at half the radius and height 1: (0.5 cos, 0.5 sin, 1). */
  function Inner(p: Vec3): Vec3 { Vec3(0.5 * p.x, 0.5 * p.y, 1.0) }

  /** The normal project C gives every circle vertex. */
  const FaceNormal := Vec3(0.0, 0.0, 1.0)

  // ---------------------------------------------------------------- circles

  /** The colour of step `i` of a project C circle; the top circle runs the hue backwards. */
  function CircleColor(ring: Ring, invert: bool, i: nat): Vec3
  {
    if invert then ring.invHue(i) else ring.hue(i)
  }

  /** The project C circle after `k` turns of its loop: the white centre, then one rim vertex per turn. */
  function CircleC(ring: Ring, invert: bool, k: nat): seq<Vertex>
  {
    if k == 0 then [Vertex(Origin, White, FaceNormal)]
    else CircleC(ring, invert, k - 1) + [Vertex(ring.rim(k - 1), CircleColor(ring, invert, k - 1), FaceNormal)]
  }

  /**
   * A project C circle has one vertex more than its loop has turns: the
   * centre comes first, vertex j + 1 is rim step j, and every normal is
   * (0, 0, 1).
   */
  lemma {:induction false} CircleCShape(ring: Ring, invert: bool, k: nat)
    ensures |CircleC(ring, invert, k)| == k + 1
    ensures CircleC(ring, invert, k)[0] == Vertex(Origin, White, FaceNormal)
    ensures forall j :: 0 < j < |CircleC(ring, invert, k)| ==>
              CircleC(ring, invert, k)[j] == Vertex(ring.rim(j - 1), CircleColor(ring, invert, j - 1), FaceNormal)
    ensures forall j :: 0 <= j < |CircleC(ring, invert, k)| ==> CircleC(ring, invert, k)[j].normal == FaceNormal
  {
    if k > 0 {
      CircleCShape(ring, invert, k - 1);
    }
  }

  /** The vertex loop of project C's `initCircleMesh(n, invert)`: steps 0 to n inclusive. */
  method CircleVertsC(n: nat, ring: Ring, invert: bool) returns (verts: seq<Vertex>)
    ensures verts == CircleC(ring, invert, n + 1)
    ensures |verts| == n + 2 && verts[0] == Vertex(Origin, White, FaceNormal)
  {
    verts := [Vertex(Origin, White, FaceNormal)];
    var i := 0;
    while i <= n
      invariant 0 <= i <= n + 1
      invariant verts == CircleC(ring, invert, i)
    {
      var color := if invert then ring.invHue(i) else ring.hue(i);
      verts := verts + [Vertex(ring.rim(i), color, FaceNormal)];
      i := i + 1;
    }
    CircleCShape(ring, invert, n + 1);
  }

  /** Project C's `initCircleMesh`: a `TRIANGLE_FAN` mesh named "Circle" drawn with the phong program. */
  method InitCircleMeshC(n: nat, ring: Ring, invert: bool, phong: Program) returns (m: Mesh)
    ensures fresh(m) && m.renderType == TRIANGLE_FAN && m.name == "Circle" && m.renderProgram == phong
    ensures m.verts == CircleC(ring, invert, n + 1) && m.uniforms == []
    ensures m.vboStart.None? && m.vboCount.None? && m.wireframe.None?
  {
    m := new Mesh(TRIANGLE_FAN, "Circle", phong);
    m.verts := CircleVertsC(n, ring, invert);
  }

  /** The project A/B circle after `k` turns: as in project C, without normals. */
  function Circle(ring: Ring, k: nat): seq<ColorVertex>
  {
    if k == 0 then [ColorVertex(Origin, White)]
    else Circle(ring, k - 1) + [ColorVertex(ring.rim(k - 1), ring.hue(k - 1))]
  }

  /** The project A/B circle: the white centre first, then vertex j + 1 is rim step j. */
  lemma {:induction false} CircleShape(ring: Ring, k: nat)
    ensures |Circle(ring, k)| == k + 1
    ensures Circle(ring, k)[0] == ColorVertex(Origin, White)
    ensures forall j :: 0 < j < |Circle(ring, k)| ==> Circle(ring, k)[j] == ColorVertex(ring.rim(j - 1), ring.hue(j - 1))
  {
    if k > 0 {
      CircleShape(ring, k - 1);
    }
  }

  /** The vertex loop of the project A and B `initCircleMesh(n)`. */
  method CircleVerts(n: nat, ring: Ring) returns (verts: seq<ColorVertex>)
    ensures verts == Circle(ring, n + 1)
    ensures |verts| == n + 2 && verts[0] == ColorVertex(Origin, White)
  {
    verts := [ColorVertex(Origin, White)];
    var i := 0;
    while i <= n
      invariant 0 <= i <= n + 1
      invariant verts == Circle(ring, i)
    {
      verts := verts + [ColorVertex(ring.rim(i), ring.hue(i))];
      i := i + 1;
    }
    CircleShape(ring, n + 1);
  }

  /** Project B's `initCircleMesh`: a `TRIANGLE_FAN` mesh named "Circle". */
  method InitCircleMeshB(n: nat, ring: Ring) returns (m: SimpleMesh)
    ensures fresh(m) && m.renderType == TRIANGLE_FAN && m.name == "Circle"
    ensures m.verts == Circle(ring, n + 1) && m.vboStart.None? && m.vboCount.None?
  {
    var verts := CircleVerts(n, ring);
    m := new SimpleMesh(TRIANGLE_FAN, "Circle", verts);
  }

  /** Project A's `initCircleMesh`: an unnamed mesh whose render type is set to `TRIANGLE_FAN`. */
  method InitCircleMeshA(n: nat, ring: Ring) returns (m: SimpleMesh)
    ensures fresh(m) && m.renderType == TRIANGLE_FAN && m.name == ""
    ensures m.verts == Circle(ring, n + 1) && m.vboStart.None? && m.vboCount.None?
  {
    var verts := CircleVerts(n, ring);
    m := new SimpleMesh(TRIANGLE_FAN, "", verts);
  }

  // -------------------------------------------------------------- cylinders

  /**
   * The six vertices project C pushes at step `i` > 0: two triangles
   * spanning rim steps i - 1 and i and the inner points above them. The
   * vertices carry no normal, so they get the default one.
   */
  function QuadC(ring: Ring, i: nat): seq<Vertex>
    requires i > 0
  {
    var prevZ0 := NewVertex(ring.rim(i - 1), ring.hue(i - 1), None);
    var prevZ1 := NewVertex(Inner(ring.rim(i - 1)), ring.hue(i - 1), None);
    var z0 := NewVertex(ring.rim(i), ring.hue(i), None);
    var z1 := NewVertex(Inner(ring.rim(i)), ring.hue(i), None);
    [prevZ0, z0, prevZ1, prevZ1, z0, z1]
  }

  /** The project C cylinder side after steps 0 to k - 1; step 0 pushes nothing. */
  function CylinderSideC(ring: Ring, k: nat): seq<Vertex>
  {
    if k <= 1 then [] else CylinderSideC(ring, k - 1) + QuadC(ring, k - 1)
  }

  /**
   * The project C cylinder side of an n-part circle has 6n vertices, a
   * whole number of triangles, and the two triangles of each step share
   * the edge from the new rim point to the previous inner point.
   */
  lemma {:induction false} CylinderSideCShape(ring: Ring, n: nat)
    ensures |CylinderSideC(ring, n + 1)| == 6 * n
    ensures |CylinderSideC(ring, n + 1)| % 3 == 0
    ensures forall q :: 0 <= q < n ==>
              CylinderSideC(ring, n + 1)[6 * q + 1] == CylinderSideC(ring, n + 1)[6 * q + 4] &&
              CylinderSideC(ring, n + 1)[6 * q + 2] == CylinderSideC(ring, n + 1)[6 * q + 3]
  {
    if n > 0 {
      CylinderSideCShape(ring, n - 1);
      var prev := CylinderSideC(ring, n);
      var s := CylinderSideC(ring, n + 1);
      assert s == prev + QuadC(ring, n);
      forall q | 0 <= q < n
        ensures s[6 * q + 1] == s[6 * q + 4] && s[6 * q + 2] == s[6 * q + 3]
      {
        if q < n - 1 {
          assert s[6 * q + 1] == prev[6 * q + 1] && s[6 * q + 4] == prev[6 * q + 4];
          assert s[6 * q + 2] == prev[6 * q + 2] && s[6 * q + 3] == prev[6 * q + 3];
        }
      }
    }
  }

  /** The vertex loop of project C's `initCyllinderSideMesh(n)`. */
  method CylinderSideVertsC(n: nat, ring: Ring) returns (verts: seq<Vertex>)
    ensures verts == CylinderSideC(ring, n + 1)
    ensures |verts| == 6 * n && |verts| % 3 == 0
  {
    verts := [];
    var prevZ0: Option<Vertex> := None;
    var prevZ1: Option<Vertex> := None;
    var i := 0;
    while i <= n
      invariant 0 <= i <= n + 1
      invariant verts == CylinderSideC(ring, i)
      invariant i > 0 ==> prevZ0 == Some(NewVertex(ring.rim(i - 1), ring.hue(i - 1), None))
      invariant i > 0 ==> prevZ1 == Some(NewVertex(Inner(ring.rim(i - 1)), ring.hue(i - 1), None))
    {
      var pos1 := ring.rim(i);
      var pos2 := Inner(pos1);
      var color := ring.hue(i);
      if i != 0 {
        verts := verts + [prevZ0.value, NewVertex(pos1, color, None), prevZ1.value, prevZ1.value, NewVertex(pos1, color, None), NewVertex(pos2, color, None)];
      }
      prevZ0 := Some(NewVertex(pos1, color, None));
      prevZ1 := Some(NewVertex(pos2, color, None));
      i := i + 1;
    }
    CylinderSideCShape(ring, n);
  }

  /** Project C's `initCyllinderSideMesh`: a `TRIANGLES` mesh named "CyllinderSide" drawn with the phong program. */
  method InitCylinderSideMeshC(n: nat, ring: Ring, phong: Program) returns (m: Mesh)
    ensures fresh(m) && m.renderType == TRIANGLES && m.name == "CyllinderSide" && m.renderProgram == phong
    ensures m.verts == CylinderSideC(ring, n + 1) && m.uniforms == []
    ensures m.vboStart.None? && m.vboCount.None? && m.wireframe.None?
  {
    m := new Mesh(TRIANGLES, "CyllinderSide", phong);
    m.verts := CylinderSideVertsC(n, ring);
  }

  /** The project A/B cylinder side after `k` steps: a rim vertex and the inner vertex above it per step. */
  function CylinderSide(ring: Ring, k: nat): seq<ColorVertex>
  {
    if k == 0 then []
    else CylinderSide(ring, k - 1) + [ColorVertex(ring.rim(k - 1), ring.hue(k - 1)), ColorVertex(Inner(ring.rim(k - 1)), ring.hue(k - 1))]
  }

  /**
   * The project A/B cylinder side is a triangle strip of 2k vertices that
   * alternates between the rim (even positions) and the inner circle (odd
   * positions), both taken from step j / 2.
   */
  lemma {:induction false} CylinderSideShape(ring: Ring, k: nat)
    ensures |CylinderSide(ring, k)| == 2 * k
    ensures forall j :: 0 <= j < |CylinderSide(ring, k)| ==>
              CylinderSide(ring, k)[j] ==
                if j % 2 == 0 then ColorVertex(ring.rim(j / 2), ring.hue(j / 2))
                else ColorVertex(Inner(ring.rim(j / 2)), ring.hue(j / 2))
  {
    if k > 0 {
      CylinderSideShape(ring, k - 1);
      var s := CylinderSide(ring, k);
      forall j | 2 * k - 2 <= j < 2 * k
        ensures s[j] == if j % 2 == 0 then ColorVertex(ring.rim(j / 2), ring.hue(j / 2))
                        else ColorVertex(Inner(ring.rim(j / 2)), ring.hue(j / 2))
      {
        assert j / 2 == k - 1;
      }
    }
  }

  /** The vertex loop of the project A and B `initCyllinderSideMesh(n)`: steps 0 to n inclusive. */
  method CylinderSideVerts(n: nat, ring: Ring) returns (verts: seq<ColorVertex>)
    ensures verts == CylinderSide(ring, n + 1)
    ensures |verts| == 2 * (n + 1)
  {
    verts := [];
    var i := 0;
    while i <= n
      invariant 0 <= i <= n + 1
      invariant verts == CylinderSide(ring, i)
    {
      var pos1 := ring.rim(i);
      var pos2 := Inner(pos1);
      var color := ring.hue(i);
      verts := verts + [ColorVertex(pos1, color), ColorVertex(pos2, color)];
      i := i + 1;
    }
    CylinderSideShape(ring, n + 1);
  }

  /** Project B's `initCyllinderSideMesh`: a `TRIANGLE_STRIP` mesh named "CyllinderSide". */
  method InitCylinderSideMeshB(n: nat, ring: Ring) returns (m: SimpleMesh)
    ensures fresh(m) && m.renderType == TRIANGLE_STRIP && m.name == "CyllinderSide"
    ensures m.verts == CylinderSide(ring, n + 1) && m.vboStart.None? && m.vboCount.None?
  {
    var verts := CylinderSideVerts(n, ring);
    m := new SimpleMesh(TRIANGLE_STRIP, "CyllinderSide", verts);
  }

  /** Project A's `initCyllinderSideMesh`: an unnamed mesh whose render type is set to `TRIANGLE_STRIP`. */
  method InitCylinderSideMeshA(n: nat, ring: Ring) returns (m: SimpleMesh)
    ensures fresh(m) && m.renderType == TRIANGLE_STRIP && m.name == ""
    ensures m.verts == CylinderSide(ring, n + 1) && m.vboStart.None? && m.vboCount.None?
  {
    var verts := CylinderSideVerts(n, ring);
    m := new SimpleMesh(TRIANGLE_STRIP, "", verts);
  }
}
