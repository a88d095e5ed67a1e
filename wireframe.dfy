/**
 * Wireframe index generation (`calculateWireframeElements`, project C):
 * a triangle list becomes its three edges per triangle, a triangle fan
 * becomes the spoke and rim edge of each wedge; the indices address the
 * mesh's vertices inside the shared vertex buffer.
 */
module Wireframe {
  import opened Common
  import opened Meshes

  /** Vertex offsets of the three edges i→i+1, i+1→i+2, i+2→i of a triangle. */
  function TriangleCorner(r: nat): nat
    requires r < 6
  {
    [0, 1, 1, 2, 2, 0][r]
  }

  /**
   * The edge list of a triangle list of `n` vertices starting at `start`:
   * six indices per started triangle (a trailing partial triangle still
   * gets all six, reaching past the mesh).
   */
  function TriangleEdges(start: nat, n: nat): seq<nat>
  {
    seq(6 * ((n + 2) / 3), k requires 0 <= k < 6 * ((n + 2) / 3) => start + 3 * (k / 6) + TriangleCorner(k % 6))
  }

  /**
   * The edge list of a triangle fan of `n` vertices starting at `start`:
   * for every rim vertex i after the first, the spoke start→i and the rim
   * edge i→i-1.
   */
  function FanEdges(start: nat, n: nat): seq<nat>
  {
    var len := if n == 0 then 0 else 4 * (n - 1);
    seq(len, k requires 0 <= k < len =>
      var i := start + 1 + k / 4;
      if k % 4 == 0 then start else if k % 4 == 3 then i - 1 else i)
  }

  /** The render types for which `calculateWireframeElements` builds an index list. */
  predicate HasWireframe(renderType: int)
  {
    renderType == TRIANGLES || renderType == TRIANGLE_FAN
  }

  /**
   * What `calculateWireframeElements` uploads for a mesh of the given type:
   * `None` (nothing created) unless the type is `TRIANGLES` or
   * `TRIANGLE_FAN`. An absent `vboStart` makes both loops empty.
   */
  function WireframeFor(renderType: int, start: Option<nat>, n: nat): (r: Option<seq<nat>>)
    ensures r.Some? <==> HasWireframe(renderType)
  {
    if renderType == TRIANGLES then Some(if start.Some? then TriangleEdges(start.value, n) else [])
    else if renderType == TRIANGLE_FAN then Some(if start.Some? then FanEdges(start.value, n) else [])
    else None
  }

  /** The `gl.TRIANGLES` loop: from `start` in steps of three, the three edges of each triangle. */
  method TriangleLoop(s: nat, n: nat) returns (elems: seq<nat>)
    ensures elems == TriangleEdges(s, n)
  {
    elems := [];
    var i := s;
    while i < n + s
      invariant s <= i && (i - s) % 3 == 0
      invariant i - s <= n + 2
      invariant elems == TriangleEdges(s, i - s)
    {
      TriangleEdgesStep(s, i - s);
      elems := elems + [i, i + 1, i + 1, i + 2, i + 2, i];
      i := i + 3;
    }
    assert (i - s) / 3 * 3 == i - s;
    assert (i - s + 2) / 3 == (n + 2) / 3;
    TriangleEdgesSame(s, i - s, n);
  }

  /** The `gl.TRIANGLE_FAN` loop: for each rim vertex after the first, its spoke and rim edge. */
  method FanLoop(s: nat, n: nat) returns (elems: seq<nat>)
    ensures elems == FanEdges(s, n)
  {
    elems := [];
    var i := s + 1;
    while i < n + s
      invariant s + 1 <= i <= if n == 0 then s + 1 else n + s
      invariant elems == FanEdges(s, i - s)
    {
      FanEdgesStep(s, i - s);
      elems := elems + [s, i, i, i - 1];
      i := i + 1;
    }
    if n == 0 {
      assert |FanEdges(s, i - s)| == 0 == |FanEdges(s, n)|;
    }
  }

  /** The two index loops of `calculateWireframeElements`, chosen by render type. */
  method WireframeIndices(renderType: int, start: Option<nat>, n: nat) returns (r: Option<seq<nat>>)
    ensures r == WireframeFor(renderType, start, n)
  {
    if renderType == TRIANGLES {
      var elems: seq<nat> := [];
      if start.Some? {
        elems := TriangleLoop(start.value, n);
      }
      r := Some(elems);
    } else if renderType == TRIANGLE_FAN {
      var elems: seq<nat> := [];
      if start.Some? {
        elems := FanLoop(start.value, n);
      }
      r := Some(elems);
    } else {
      r := None;
    }
  }

  lemma DivMod6(k: nat, q: nat)
    requires 6 * q <= k < 6 * q + 6
    ensures k / 6 == q && k % 6 == k - 6 * q
  {
  }

  lemma DivMod4(k: nat, q: nat)
    requires 4 * q <= k < 4 * q + 4
    ensures k / 4 == q && k % 4 == k - 4 * q
  {
  }

  lemma TriangleEdgesStep(s: nat, m: nat)
    requires m % 3 == 0
    ensures TriangleEdges(s, m + 3) == TriangleEdges(s, m) + [s + m, s + m + 1, s + m + 1, s + m + 2, s + m + 2, s + m]
  {
    var q := m / 3;
    assert (m + 2) / 3 == q && (m + 3 + 2) / 3 == q + 1;
    var a := TriangleEdges(s, m + 3);
    var b := TriangleEdges(s, m) + [s + m, s + m + 1, s + m + 1, s + m + 2, s + m + 2, s + m];
    assert |a| == 6 * q + 6 == |b|;
    forall k | 0 <= k < |a| ensures a[k] == b[k] {
      if k >= 6 * q {
        DivMod6(k, q);
      }
    }
  }

  lemma TriangleEdgesSame(s: nat, m1: nat, m2: nat)
    requires (m1 + 2) / 3 == (m2 + 2) / 3
    ensures TriangleEdges(s, m1) == TriangleEdges(s, m2)
  {
  }

  lemma FanEdgesStep(s: nat, m: nat)
    requires m >= 1
    ensures FanEdges(s, m + 1) == FanEdges(s, m) + [s, s + m, s + m, s + m - 1]
  {
    var a := FanEdges(s, m + 1);
    var b := FanEdges(s, m) + [s, s + m, s + m, s + m - 1];
    assert |a| == 4 * m == |b|;
    forall k | 0 <= k < |a| ensures a[k] == b[k] {
      if k >= 4 * (m - 1) {
        DivMod4(k, m - 1);
      }
    }
  }

  /** `calculateWireframeElements(mesh)`: the index buffer is (re)created only for the two handled types. */
  method CalculateWireframeElements(m: Mesh)
    modifies m`wireframe
    ensures var w := WireframeFor(m.renderType, m.vboStart, |m.verts|);
            m.wireframe == if w.Some? then w else old(m.wireframe)
  {
    var w := WireframeIndices(m.renderType, m.vboStart, |m.verts|);
    if w.Some? {
      m.wireframe := w;
    }
  }

  /** A triangle list of whole triangles gets six indices per triangle, all inside the mesh's range. */
  lemma TriangleEdgesInRange(start: nat, n: nat)
    requires n % 3 == 0
    ensures |TriangleEdges(start, n)| == 2 * n
    ensures forall k :: 0 <= k < |TriangleEdges(start, n)| ==> start <= TriangleEdges(start, n)[k] < start + n
  {
    var e := TriangleEdges(start, n);
    assert (n + 2) / 3 == n / 3;
    forall k | 0 <= k < |e| ensures start <= e[k] < start + n {
      assert k / 6 < n / 3;
      assert 3 * (k / 6) + 2 < n;
    }
  }

  /** Every triangle contributes its three edges, each listed as a pair of its own corners. */
  lemma TriangleEdgesAreEdges(start: nat, triangles: nat, t: nat)
    requires t < triangles
    ensures var e := TriangleEdges(start, 3 * triangles);
            var v := start + 3 * t;
            6 * t + 6 <= |e| && e[6 * t .. 6 * t + 6] == [v, v + 1, v + 1, v + 2, v + 2, v]
  {
    var e := TriangleEdges(start, 3 * triangles);
    assert (3 * triangles + 2) / 3 == triangles;
    var v := start + 3 * t;
    assert 6 * t + 6 <= 6 * triangles;
    DivMod6(6 * t, t);
    DivMod6(6 * t + 1, t);
    DivMod6(6 * t + 2, t);
    DivMod6(6 * t + 3, t);
    DivMod6(6 * t + 4, t);
    DivMod6(6 * t + 5, t);
    assert e[6 * t .. 6 * t + 6] == [e[6 * t], e[6 * t + 1], e[6 * t + 2], e[6 * t + 3], e[6 * t + 4], e[6 * t + 5]];
  }

  /** A fan of n ≥ 1 vertices gets 4(n−1) indices, all inside the mesh's range, every spoke from the centre. */
  lemma FanEdgesInRange(start: nat, n: nat)
    requires n >= 1
    ensures |FanEdges(start, n)| == 4 * (n - 1)
    ensures forall k :: 0 <= k < |FanEdges(start, n)| ==> start <= FanEdges(start, n)[k] < start + n
    ensures forall k :: 0 <= k < |FanEdges(start, n)| && k % 4 == 0 ==> FanEdges(start, n)[k] == start
  {
    var e := FanEdges(start, n);
    forall k | 0 <= k < |e| ensures start <= e[k] < start + n {
      assert k / 4 < n - 1;
    }
  }
}
