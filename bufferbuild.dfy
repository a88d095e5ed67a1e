/**
 * Vertex-buffer flattening (`buildBuffer`): a pre-order walk of the scene
 * graph that appends each mesh's vertices to one shared float array and
 * records in the mesh where its vertices start and how many there are.
 *
 * Projects B and C skip a mesh whose `vboStart` is already set, so a mesh
 * shared by several nodes occupies one region. Project A (both frameworks)
 * has no such guard: a shared mesh is appended once per reference and keeps
 * the offset of its last occurrence.
 *
 * The fields the walk writes are collected per mesh in a `Slot`; the walk's
 * effect on them is the pure function `ApplyLayout`, applied to the meshes
 * in the order they are appended. The methods are proved against it, and
 * the layout properties are lemmas about it.
 */
module BufferBuild {
  import opened Common
  import opened Meshes
  import opened SceneTree
  import opened Wireframe

  /** A project C vertex in the buffer: x, y, z, 1.0, r, g, b, nx, ny, nz (`primsPerVertex` is 10). */
  function VertexFloats(v: Vertex): (r: seq<real>)
    ensures |r| == 10
  {
    [v.pos.x, v.pos.y, v.pos.z, 1.0, v.color.x, v.color.y, v.color.z, v.normal.x, v.normal.y, v.normal.z]
  }

  /** A project A/B vertex in the buffer: x, y, z, 1.0, r, g, b (`primsPerVertex` is 7). */
  function ColorVertexFloats(v: ColorVertex): (r: seq<real>)
    ensures |r| == 7
  {
    [v.pos.x, v.pos.y, v.pos.z, 1.0, v.color.x, v.color.y, v.color.z]
  }

  function VertsFloats(vs: seq<Vertex>): (r: seq<real>)
    ensures |r| == 10 * |vs|
  {
    if vs == [] then [] else VertsFloats(vs[..|vs| - 1]) + VertexFloats(vs[|vs| - 1])
  }

  function ColorVertsFloats(vs: seq<ColorVertex>): (r: seq<real>)
    ensures |r| == 7 * |vs|
  {
    if vs == [] then [] else ColorVertsFloats(vs[..|vs| - 1]) + ColorVertexFloats(vs[|vs| - 1])
  }

  /** `enc` writes `width` floats per vertex, `width` being a vertex format's `primsPerVertex`. */
  ghost predicate Encodes<V(!new)>(enc: seq<V> -> seq<real>, width: nat)
  {
    (width == 7 || width == 10) && forall vs :: |enc(vs)| == width * |vs|
  }

  lemma VertsEncode()
    ensures Encodes(VertsFloats, 10) && Encodes(ColorVertsFloats, 7)
  {
  }

  /** The floats of the meshes `ms`, one after another, each mesh's vertices written by `enc`. */
  function Floats<M, V>(ms: seq<M>, geo: map<M, seq<V>>, enc: seq<V> -> seq<real>): seq<real>
    requires forall m :: m in ms ==> m in geo
  {
    if ms == [] then [] else enc(geo[ms[0]]) + Floats(ms[1..], geo, enc)
  }

  /** Total number of vertices of the meshes `ms`. */
  function VertTotal<M, V>(ms: seq<M>, geo: map<M, seq<V>>): nat
    requires forall m :: m in ms ==> m in geo
  {
    if ms == [] then 0 else |geo[ms[0]]| + VertTotal(ms[1..], geo)
  }

  lemma {:induction false} VertTotalAppend<M, V>(a: seq<M>, b: seq<M>, geo: map<M, seq<V>>)
    requires forall m :: m in a + b ==> m in geo
    ensures VertTotal(a + b, geo) == VertTotal(a, geo) + VertTotal(b, geo)
  {
    if a == [] {
      assert a + b == b;
    } else {
      assert (a + b)[0] == a[0] && (a + b)[1..] == a[1..] + b;
      VertTotalAppend(a[1..], b, geo);
    }
  }

  /** The buffer holds `width` floats for every vertex of every mesh. */
  lemma {:induction false} FloatsLength<M, V(!new)>(ms: seq<M>, geo: map<M, seq<V>>, enc: seq<V> -> seq<real>, width: nat)
    requires forall m :: m in ms ==> m in geo
    requires Encodes(enc, width)
    ensures |Floats(ms, geo, enc)| == width * VertTotal(ms, geo)
  {
    if ms != [] {
      FloatsLength(ms[1..], geo, enc, width);
      assert |enc(geo[ms[0]])| == width * |geo[ms[0]]|;
    }
  }

  lemma {:induction false} FloatsAppend<M, V>(a: seq<M>, b: seq<M>, geo: map<M, seq<V>>, enc: seq<V> -> seq<real>)
    requires forall m :: m in a + b ==> m in geo
    ensures Floats(a + b, geo, enc) == Floats(a, geo, enc) + Floats(b, geo, enc)
  {
    if a == [] {
      assert a + b == b;
    } else {
      assert (a + b)[0] == a[0] && (a + b)[1..] == a[1..] + b;
      FloatsAppend(a[1..], b, geo, enc);
    }
  }

  /** Appending whole vertices keeps the buffer a whole number of vertices. */
  lemma WholeVertices(floats: nat, width: nat, verts: nat, total: nat)
    requires width == 7 || width == 10
    requires floats % width == 0 && total == floats + width * verts
    ensures total % width == 0 && total / width == floats / width + verts
  {
  }

  // ---------------------------------------------------------------------
  // The layout as a function of the buffer fields of the meshes
  // ---------------------------------------------------------------------

  /** The fields `buildBuffer` writes: `vboStart`, `vboCount` and (project C) the wireframe index list. */
  datatype Slot = Slot(vboStart: Option<nat>, vboCount: Option<nat>, wireframe: Option<seq<nat>>)

  /** The meshes whose `vboStart` is set. */
  function Placed<M>(slots: map<M, Slot>): set<M>
  {
    set m | m in slots && slots[m].vboStart.Some?
  }

  /**
   * The slot of mesh `m` once its `n` vertices are appended at vertex
   * `start`: `wire` says which wireframe index list is (re)built, `None`
   * leaving the old one.
   */
  function NewSlot<M>(m: M, start: nat, n: nat, prior: Slot, wire: (M, nat, nat) -> Option<seq<nat>>): (r: Slot)
    ensures r.vboStart == Some(start) && r.vboCount == Some(n)
    ensures r.wireframe == if wire(m, start, n).Some? then wire(m, start, n) else prior.wireframe
  {
    var w := wire(m, start, n);
    Slot(Some(start), Some(n), if w.Some? then w else prior.wireframe)
  }

  /**
   * The slots after appending the meshes `placed`, in order, to a buffer of
   * `base` vertices. A mesh listed twice is written twice; the later write
   * wins.
   */
  function ApplyLayout<M, V>(slots: map<M, Slot>, placed: seq<M>, base: nat, geo: map<M, seq<V>>,
                             wire: (M, nat, nat) -> Option<seq<nat>>): (r: map<M, Slot>)
    requires forall m :: m in placed ==> m in slots && m in geo
    ensures r.Keys == slots.Keys
    decreases |placed|
  {
    if placed == [] then slots
    else
      var m := placed[0];
      ApplyLayout(slots[m := NewSlot(m, base, |geo[m]|, slots[m], wire)], placed[1..], base + |geo[m]|, geo, wire)
  }

  /** Appending `a` then `b` is appending `a + b`. */
  lemma {:induction false} ApplyLayoutAppend<M, V>(slots: map<M, Slot>, a: seq<M>, b: seq<M>, base: nat,
                                                    geo: map<M, seq<V>>, wire: (M, nat, nat) -> Option<seq<nat>>)
    requires forall m :: m in a + b ==> m in slots && m in geo
    ensures ApplyLayout(slots, a + b, base, geo, wire) ==
            ApplyLayout(ApplyLayout(slots, a, base, geo, wire), b, base + VertTotal(a, geo), geo, wire)
  {
    if a == [] {
      assert a + b == b;
    } else {
      var m := a[0];
      assert (a + b)[0] == m && (a + b)[1..] == a[1..] + b;
      ApplyLayoutAppend(slots[m := NewSlot(m, base, |geo[m]|, slots[m], wire)], a[1..], b, base + |geo[m]|, geo, wire);
    }
  }

  /** A mesh that is not appended keeps its slot. */
  lemma {:induction false} ApplyLayoutOutside<M, V>(slots: map<M, Slot>, placed: seq<M>, base: nat,
                                                     geo: map<M, seq<V>>, wire: (M, nat, nat) -> Option<seq<nat>>, m: M)
    requires forall x :: x in placed ==> x in slots && x in geo
    requires m in slots && m !in placed
    ensures ApplyLayout(slots, placed, base, geo, wire)[m] == slots[m]
  {
    if placed != [] {
      var p := placed[0];
      ApplyLayoutOutside(slots[p := NewSlot(p, base, |geo[p]|, slots[p], wire)], placed[1..], base + |geo[p]|, geo, wire, m);
    }
  }

  /** After appending, the placed meshes are those placed before plus the appended ones. */
  lemma {:induction false} ApplyLayoutPlaced<M, V>(slots: map<M, Slot>, placed: seq<M>, base: nat,
                                                    geo: map<M, seq<V>>, wire: (M, nat, nat) -> Option<seq<nat>>)
    requires forall x :: x in placed ==> x in slots && x in geo
    ensures Placed(ApplyLayout(slots, placed, base, geo, wire)) == Placed(slots) + Elems(placed)
  {
    if placed != [] {
      var p := placed[0];
      var s1 := slots[p := NewSlot(p, base, |geo[p]|, slots[p], wire)];
      ApplyLayoutPlaced(s1, placed[1..], base + |geo[p]|, geo, wire);
      assert Placed(s1) == Placed(slots) + {p};
      assert Elems(placed) == {p} + Elems(placed[1..]);
    }
  }

  /**
   * Each of distinct appended meshes starts right after the vertices of the
   * meshes appended before it and records its own vertex count.
   */
  lemma {:induction false} ApplyLayoutAt<M, V>(slots: map<M, Slot>, placed: seq<M>, base: nat,
                                                geo: map<M, seq<V>>, wire: (M, nat, nat) -> Option<seq<nat>>, j: nat)
    requires forall x :: x in placed ==> x in slots && x in geo
    requires Distinct(placed) && j < |placed|
    ensures ApplyLayout(slots, placed, base, geo, wire)[placed[j]] ==
            NewSlot(placed[j], base + VertTotal(placed[..j], geo), |geo[placed[j]]|, slots[placed[j]], wire)
  {
    var p := placed[0];
    var s1 := slots[p := NewSlot(p, base, |geo[p]|, slots[p], wire)];
    if j == 0 {
      assert forall i :: 0 <= i < |placed[1..]| ==> placed[1..][i] == placed[i + 1] != p;
      ApplyLayoutOutside(s1, placed[1..], base + |geo[p]|, geo, wire, p);
      assert placed[..0] == [];
    } else {
      assert Distinct(placed[1..]);
      ApplyLayoutAt(s1, placed[1..], base + |geo[p]|, geo, wire, j - 1);
      assert placed[j] != p;
      assert placed[..j][0] == p && placed[..j][1..] == placed[1..][..j - 1];
    }
  }

  /**
   * Of a mesh appended several times, the last append (at index `i`) wins:
   * its slot is that of an append right after the meshes before index `i`.
   */
  lemma ApplyLayoutLast<M, V>(slots: map<M, Slot>, placed: seq<M>, base: nat,
                              geo: map<M, seq<V>>, wire: (M, nat, nat) -> Option<seq<nat>>, i: nat)
    requires forall x :: x in placed ==> x in slots && x in geo
    requires i < |placed| && forall j :: i < j < |placed| ==> placed[j] != placed[i]
    ensures ApplyLayout(slots, placed, base, geo, wire)[placed[i]] ==
            NewSlot(placed[i], base + VertTotal(placed[..i], geo), |geo[placed[i]]|,
                    ApplyLayout(slots, placed[..i], base, geo, wire)[placed[i]], wire)
  {
    var m := placed[i];
    var a, b := placed[..i] + [m], placed[i + 1..];
    assert placed == a + b;
    LastNotAfter(placed, i);
    ApplyLayoutTail(slots, a, b, base, geo, wire, m);
    ApplyLayoutEnd(slots, placed[..i], m, base, geo, wire);
  }

  lemma LastNotAfter<M>(s: seq<M>, i: nat)
    requires i < |s| && forall j :: i < j < |s| ==> s[j] != s[i]
    ensures s[i] !in s[i + 1..]
  {
    var t := s[i + 1..];
    assert forall k :: 0 <= k < |t| ==> t[k] == s[i + 1 + k];
  }

  /** Appending meshes other than `m` after `a` leaves the slot `a` gave `m`. */
  lemma ApplyLayoutTail<M, V>(slots: map<M, Slot>, a: seq<M>, b: seq<M>, base: nat,
                              geo: map<M, seq<V>>, wire: (M, nat, nat) -> Option<seq<nat>>, m: M)
    requires forall x :: x in a + b ==> x in slots && x in geo
    requires m in slots && m !in b
    ensures ApplyLayout(slots, a + b, base, geo, wire)[m] == ApplyLayout(slots, a, base, geo, wire)[m]
  {
    ApplyLayoutAppend(slots, a, b, base, geo, wire);
    ApplyLayoutOutside(ApplyLayout(slots, a, base, geo, wire), b, base + VertTotal(a, geo), geo, wire, m);
  }

  /** The mesh appended last gets the slot of an append right after the others. */
  lemma ApplyLayoutEnd<M, V>(slots: map<M, Slot>, a: seq<M>, m: M, base: nat,
                             geo: map<M, seq<V>>, wire: (M, nat, nat) -> Option<seq<nat>>)
    requires forall x :: x in a + [m] ==> x in slots && x in geo
    ensures ApplyLayout(slots, a + [m], base, geo, wire)[m] ==
            NewSlot(m, base + VertTotal(a, geo), |geo[m]|, ApplyLayout(slots, a, base, geo, wire)[m], wire)
  {
    ApplyLayoutAppend(slots, a, [m], base, geo, wire);
    assert [m][1..] == [];
  }

  /** The regions of two distinct appended meshes do not overlap: the earlier one ends before the later one starts. */
  lemma {:induction false} RegionsDisjoint<M, V>(placed: seq<M>, geo: map<M, seq<V>>, i: nat, j: nat)
    requires forall x :: x in placed ==> x in geo
    requires i < j <= |placed|
    ensures VertTotal(placed[..i], geo) + |geo[placed[i]]| <= VertTotal(placed[..j], geo)
  {
    assert placed[..j] == placed[..i] + placed[i..j];
    VertTotalAppend(placed[..i], placed[i..j], geo);
    assert placed[i..j][0] == placed[i];
  }

  // ---------------------------------------------------------------------
  // One step of the walk, on values
  // ---------------------------------------------------------------------

  /** The meshes a guarded walk of `t` appends, given the current slots. */
  function ToPlace<M(==)>(t: Node<M>, slots: map<M, Slot>): seq<M>
  {
    Fresh(MeshOcc(t), Placed(slots))
  }

  /**
   * The meshes a walk of `t` appends: with the guard of projects B and C,
   * the distinct ones whose `vboStart` is unset, in order of first
   * occurrence; without it (project A), every occurrence.
   */
  function Appended<M(==)>(t: Node<M>, guarded: bool, slots: map<M, Slot>): seq<M>
  {
    if guarded then ToPlace(t, slots) else MeshOcc(t)
  }

  /** What the walk of `t` has appended once it has visited the node's own mesh and its first `k` children. */
  function AppendedPrefix<M(==)>(t: Node<M>, k: nat, guarded: bool, slots: map<M, Slot>): seq<M>
    requires k <= |t.children|
  {
    var occ := Own(t) + MeshOccList(t.children[..k]);
    if guarded then Fresh(occ, Placed(slots)) else occ
  }

  /**
   * The state of a walk of `t` that started on buffer `buf` and slots `S0`
   * and has visited the node's own mesh and its first `k` children: the
   * buffer `out` and the slots `S` are those of laying out what it appended.
   */
  ghost predicate Walked<M, V(!new)>(t: Node<M>, k: nat, guarded: bool, S0: map<M, Slot>, G: map<M, seq<V>>,
                                     enc: seq<V> -> seq<real>, width: nat, wire: (M, nat, nat) -> Option<seq<nat>>,
                                     buf: seq<real>, out: seq<real>, S: map<M, Slot>)
  {
    k <= |t.children| && Encodes(enc, width) && |buf| % width == 0 &&
    MeshSet(t) <= S0.Keys && MeshSet(t) <= G.Keys &&
    var done := AppendedPrefix(t, k, guarded, S0);
    (forall x :: x in done ==> x in MeshSet(t)) &&
    out == buf + Floats(done, G, enc) && |out| % width == 0 &&
    S == ApplyLayout(S0, done, |buf| / width, G, wire)
  }

  /** A mesh whose `vboStart` is unset is fresh. */
  lemma FreshOwn<M>(m: M, slots: map<M, Slot>)
    requires m in slots && slots[m].vboStart.None?
    ensures Fresh([m], Placed(slots)) == [m]
  {
    assert [m][1..] == [];
  }

  /** Placing one mesh at the buffer's end is laying out the one-element sequence. */
  lemma WalkOwn<M, V>(m: M, S0: map<M, Slot>, G: map<M, seq<V>>, enc: seq<V> -> seq<real>, width: nat,
                      wire: (M, nat, nat) -> Option<seq<nat>>, buf: seq<real>, out: seq<real>, Snew: map<M, Slot>)
    requires m in S0 && m in G && width > 0
    requires out == buf + enc(G[m])
    requires Snew == S0[m := NewSlot(m, |buf| / width, |G[m]|, S0[m], wire)]
    ensures out == buf + Floats([m], G, enc)
    ensures Snew == ApplyLayout(S0, [m], |buf| / width, G, wire)
  {
    assert [m][1..] == [];
    assert Floats([m], G, enc) == enc(G[m]) + [];
  }

  /** After the node's own mesh, the walk is in the state of having visited no child. */
  lemma WalkStart<M, V(!new)>(t: Node<M>, guarded: bool, S0: map<M, Slot>, G: map<M, seq<V>>,
                              enc: seq<V> -> seq<real>, width: nat, wire: (M, nat, nat) -> Option<seq<nat>>,
                              buf: seq<real>, out: seq<real>, S: map<M, Slot>)
    requires Encodes(enc, width) && |buf| % width == 0 && MeshSet(t) <= S0.Keys && MeshSet(t) <= G.Keys
    requires var own := if guarded then Fresh(Own(t), Placed(S0)) else Own(t);
             (forall x :: x in own ==> x in MeshSet(t)) &&
             out == buf + Floats(own, G, enc) &&
             S == ApplyLayout(S0, own, |buf| / width, G, wire)
    ensures Walked(t, 0, guarded, S0, G, enc, width, wire, buf, out, S)
  {
    var own := if guarded then Fresh(Own(t), Placed(S0)) else Own(t);
    assert Own(t) + MeshOccList(t.children[..0]) == Own(t);
    FloatsLength(own, G, enc, width);
    WholeVertices(|buf|, width, VertTotal(own, G), |out|);
  }

  /** Having visited every child, the walk has appended `Appended(t, guarded, S0)`. */
  lemma WalkDone<M, V(!new)>(t: Node<M>, guarded: bool, S0: map<M, Slot>, G: map<M, seq<V>>,
                             enc: seq<V> -> seq<real>, width: nat, wire: (M, nat, nat) -> Option<seq<nat>>,
                             buf: seq<real>, out: seq<real>, S: map<M, Slot>)
    requires Walked(t, |t.children|, guarded, S0, G, enc, width, wire, buf, out, S)
    ensures forall x :: x in Appended(t, guarded, S0) ==> x in MeshSet(t)
    ensures out == buf + Floats(Appended(t, guarded, S0), G, enc)
    ensures S == ApplyLayout(S0, Appended(t, guarded, S0), |buf| / width, G, wire)
  {
    assert t.children[..|t.children|] == t.children;
  }

  /**
   * One turn of the walk's loop over the children, on values: if child `k`
   * appends what its own walk appends from the current slots, the walk
   * moves on to the state of having visited `k + 1` children.
   */
  lemma WalkChild<M, V(!new)>(t: Node<M>, k: nat, guarded: bool, S0: map<M, Slot>, G: map<M, seq<V>>,
                              enc: seq<V> -> seq<real>, width: nat, wire: (M, nat, nat) -> Option<seq<nat>>,
                              buf: seq<real>, prev: seq<real>, Sprev: map<M, Slot>, out: seq<real>, Snew: map<M, Slot>)
    requires k < |t.children| && MeshSet(t.children[k]) <= MeshSet(t)
    requires Walked(t, k, guarded, S0, G, enc, width, wire, buf, prev, Sprev)
    requires var added := Appended(t.children[k], guarded, Sprev);
             (forall x :: x in added ==> x in MeshSet(t.children[k])) &&
             out == prev + Floats(added, G, enc) &&
             Snew == ApplyLayout(Sprev, added, |prev| / width, G, wire)
    ensures Walked(t, k + 1, guarded, S0, G, enc, width, wire, buf, out, Snew)
  {
    var c, P0 := t.children[k], Placed(S0);
    var before := AppendedPrefix(t, k, guarded, S0);
    ChildMeshes(t, k);
    MeshOccPrefix(t, k);
    var added := Appended(c, guarded, Sprev);
    if guarded {
      WalkStep(t, k, Own(t), P0, before);
      ApplyLayoutPlaced(S0, before, |buf| / width, G, wire);
      assert added == Fresh(MeshOcc(c), P0 + Elems(before));
    } else {
      AppendAssoc(Own(t), MeshOccList(t.children[..k]), added);
    }
    assert AppendedPrefix(t, k + 1, guarded, S0) == before + added;
    FloatsLength(before, G, enc, width);
    WholeVertices(|buf|, width, VertTotal(before, G), |prev|);
    FloatsLength(added, G, enc, width);
    WholeVertices(|prev|, width, VertTotal(added, G), |out|);
    SlotsStep(S0, before, added, |buf| / width, G, wire, Sprev, Snew, |prev| / width);
    BufferStep(buf, prev, out, before, added, G, enc);
  }

  /** Laying out `before` and then `added` right after it is laying out `before + added`. */
  lemma SlotsStep<M, V>(S0: map<M, Slot>, before: seq<M>, added: seq<M>, base: nat, G: map<M, seq<V>>,
                        wire: (M, nat, nat) -> Option<seq<nat>>, Sprev: map<M, Slot>, Snew: map<M, Slot>, next: nat)
    requires forall x :: x in before + added ==> x in S0 && x in G
    requires Sprev == ApplyLayout(S0, before, base, G, wire)
    requires next == base + VertTotal(before, G)
    requires Snew == ApplyLayout(Sprev, added, next, G, wire)
    ensures Snew == ApplyLayout(S0, before + added, base, G, wire)
  {
    ApplyLayoutAppend(S0, before, added, base, G, wire);
  }

  /** Appending the floats of `added` to a buffer holding those of `before`. */
  lemma BufferStep<M, V>(buf: seq<real>, prev: seq<real>, out: seq<real>, before: seq<M>, added: seq<M>,
                         G: map<M, seq<V>>, enc: seq<V> -> seq<real>)
    requires forall x :: x in before + added ==> x in G
    requires prev == buf + Floats(before, G, enc) && out == prev + Floats(added, G, enc)
    ensures out == buf + Floats(before + added, G, enc)
  {
    FloatsAppend(before, added, G, enc);
  }

  /** The meshes a walk places after visiting the node's own mesh and its first `k + 1` children. */
  lemma WalkStep<M>(t: Node<M>, k: nat, own: seq<M>, P0: set<M>, before: seq<M>)
    requires k < |t.children| && before == Fresh(own + MeshOccList(t.children[..k]), P0)
    ensures Fresh(own + MeshOccList(t.children[..k + 1]), P0) ==
            before + Fresh(MeshOcc(t.children[k]), P0 + Elems(before))
  {
    MeshOccPrefix(t, k);
    assert own + MeshOccList(t.children[..k + 1]) == (own + MeshOccList(t.children[..k])) + MeshOcc(t.children[k]);
    FreshAppend(own + MeshOccList(t.children[..k]), MeshOcc(t.children[k]), P0);
  }

  // ---------------------------------------------------------------------
  // Project C: `Mesh`, ten floats per vertex, wireframe rebuilt
  // ---------------------------------------------------------------------

  /** The buffer fields of the meshes of `scene`. */
  ghost function Slots(scene: set<Mesh>): map<Mesh, Slot>
    reads scene
  {
    map m | m in scene :: Slot(m.vboStart, m.vboCount, m.wireframe)
  }

  /** The vertex lists of the meshes of `scene`. */
  ghost function Geo(scene: set<Mesh>): map<Mesh, seq<Vertex>>
    reads scene
  {
    map m | m in scene :: m.verts
  }

  /** The shading state (program and uniforms) of the meshes of `scene`. */
  ghost function Shading(scene: set<Mesh>): map<Mesh, (Program, seq<string>)>
    reads scene
  {
    map m | m in scene :: (m.renderProgram, m.uniforms)
  }

  /** Project C rebuilds the wireframe index list of the mesh's type, over its new range. */
  function MeshWire(m: Mesh, start: nat, n: nat): Option<seq<nat>>
  {
    WireframeFor(m.renderType, Some(start), n)
  }

  /** The `for (let vertex of mesh.verts)` loop of `buildBuffer`: ten floats pushed per vertex. */
  method PushVerts(buf: seq<real>, vs: seq<Vertex>) returns (out: seq<real>)
    ensures out == buf + VertsFloats(vs)
  {
    out := buf;
    var i := 0;
    while i < |vs|
      invariant 0 <= i <= |vs|
      invariant out == buf + VertsFloats(vs[..i])
    {
      assert vs[..i + 1][..i] == vs[..i];
      out := out + VertexFloats(vs[i]);
      i := i + 1;
    }
    assert vs[..i] == vs;
  }

  /** Records where the mesh's vertices start and how many there are. */
  method SetRange(m: Mesh, start: nat, count: nat, ghost scene: set<Mesh>)
    requires m in scene
    modifies m`vboStart, m`vboCount
    ensures Slots(scene) == old(Slots(scene))[m := Slot(Some(start), Some(count), m.wireframe)]
    ensures Geo(scene) == old(Geo(scene)) && Shading(scene) == old(Shading(scene))
  {
    m.vboStart := Some(start);
    m.vboCount := Some(count);
  }

  /** `calculateWireframeElements` seen from the slots: only the mesh's wireframe entry changes. */
  method RebuildWireframe(m: Mesh, ghost scene: set<Mesh>)
    requires m in scene
    modifies m`wireframe
    ensures Slots(scene) == old(Slots(scene))[m := Slot(m.vboStart, m.vboCount, m.wireframe)]
    ensures var w := WireframeFor(m.renderType, m.vboStart, |m.verts|);
            m.wireframe == if w.Some? then w else old(m.wireframe)
    ensures Geo(scene) == old(Geo(scene)) && Shading(scene) == old(Shading(scene))
  {
    CalculateWireframeElements(m);
  }

  /**
   * The body of `buildBuffer` for one mesh not yet placed: its vertices are
   * appended, its start and count recorded, its wireframe built.
   */
  method PlaceMesh(m: Mesh, buf: seq<real>, ghost scene: set<Mesh>) returns (out: seq<real>)
    requires m in scene && |buf| % 10 == 0
    modifies m`vboStart, m`vboCount, m`wireframe
    ensures out == buf + VertsFloats(m.verts)
    ensures Slots(scene) == old(Slots(scene))[m := NewSlot(m, |buf| / 10, |m.verts|, old(Slots(scene))[m], MeshWire)]
    ensures Geo(scene) == old(Geo(scene)) && Shading(scene) == old(Shading(scene))
  {
    ghost var S := Slots(scene);
    var start := |buf| / 10;
    out := PushVerts(buf, m.verts);
    WholeVertices(|buf|, 10, |m.verts|, |out|);
    SetRange(m, start, |out| / 10 - start, scene);
    RebuildWireframe(m, scene);
    MeshSlot(m, start, |m.verts|, S[m], m.wireframe);
  }

  lemma MeshSlot(m: Mesh, start: nat, n: nat, prior: Slot, w: Option<seq<nat>>)
    requires var built := WireframeFor(m.renderType, Some(start), n); w == if built.Some? then built else prior.wireframe
    ensures NewSlot(m, start, n, prior, MeshWire) == Slot(Some(start), Some(n), w)
  {
  }

  /** The first half of project C `buildBuffer`: the node's own mesh, placed unless its `vboStart` is set. */
  method BuildOwn(t: Node<Mesh>, buf: seq<real>, ghost scene: set<Mesh>) returns (out: seq<real>)
    requires |buf| % 10 == 0 && MeshSet(t) <= scene
    modifies scene
    ensures forall m :: m in Fresh(Own(t), Placed(old(Slots(scene)))) ==> m in MeshSet(t)
    ensures out == buf + Floats(Fresh(Own(t), Placed(old(Slots(scene)))), old(Geo(scene)), VertsFloats)
    ensures Slots(scene) == ApplyLayout(old(Slots(scene)), Fresh(Own(t), Placed(old(Slots(scene)))), |buf| / 10, old(Geo(scene)), MeshWire)
    ensures Geo(scene) == old(Geo(scene)) && Shading(scene) == old(Shading(scene))
  {
    ghost var S0, G := Slots(scene), Geo(scene);
    out := buf;
    if t.mesh.Some? && t.mesh.value.vboStart.None? {
      var m := t.mesh.value;
      out := PlaceMesh(m, out, scene);
      FreshOwn(m, S0);
      WalkOwn(m, S0, G, VertsFloats, 10, MeshWire, buf, out, Slots(scene));
    } else {
      assert Fresh(Own(t), Placed(S0)) == [];
    }
  }

  /**
   * `buildBuffer(graphNode, currBuffer)` of project C. `scene` is any set of
   * meshes that contains those of the tree (the root call can pass exactly
   * `MeshSet(t)`). The buffer comes back extended by the floats of the
   * meshes the guarded walk appends, and their slots are laid out from the
   * buffer's old end; nothing else changes.
   */
  method BuildBuffer(t: Node<Mesh>, buf: seq<real>, ghost scene: set<Mesh>) returns (out: seq<real>)
    requires |buf| % 10 == 0 && MeshSet(t) <= scene
    modifies scene
    ensures forall m :: m in ToPlace(t, old(Slots(scene))) ==> m in MeshSet(t)
    ensures out == buf + Floats(ToPlace(t, old(Slots(scene))), old(Geo(scene)), VertsFloats)
    ensures Slots(scene) == ApplyLayout(old(Slots(scene)), ToPlace(t, old(Slots(scene))), |buf| / 10, old(Geo(scene)), MeshWire)
    ensures Geo(scene) == old(Geo(scene)) && Shading(scene) == old(Shading(scene))
    decreases t
  {
    ghost var S0, G := Slots(scene), Geo(scene);
    VertsEncode();
    out := BuildOwn(t, buf, scene);
    WalkStart(t, true, S0, G, VertsFloats, 10, MeshWire, buf, out, Slots(scene));
    var k := 0;
    while k < |t.children|
      invariant Walked(t, k, true, S0, G, VertsFloats, 10, MeshWire, buf, out, Slots(scene))
      invariant Geo(scene) == G && Shading(scene) == old(Shading(scene))
    {
      ChildMeshes(t, k);
      ghost var prev, Sprev := out, Slots(scene);
      out := BuildBuffer(t.children[k], out, scene);
      WalkChild(t, k, true, S0, G, VertsFloats, 10, MeshWire, buf, prev, Sprev, out, Slots(scene));
      k := k + 1;
    }
    WalkDone(t, true, S0, G, VertsFloats, 10, MeshWire, buf, out, Slots(scene));
  }

  // ---------------------------------------------------------------------
  // Projects A and B: `SimpleMesh`, seven floats per vertex, no wireframe
  // ---------------------------------------------------------------------

  /** The buffer fields of the meshes of `scene` (they have no wireframe). */
  ghost function SimpleSlots(scene: set<SimpleMesh>): map<SimpleMesh, Slot>
    reads scene
  {
    map m | m in scene :: Slot(m.vboStart, m.vboCount, None)
  }

  /** The vertex lists of the meshes of `scene`. */
  ghost function SimpleGeo(scene: set<SimpleMesh>): map<SimpleMesh, seq<ColorVertex>>
    reads scene
  {
    map m | m in scene :: m.verts
  }

  /** Projects A and B build no wireframe. */
  function NoWire(m: SimpleMesh, start: nat, n: nat): Option<seq<nat>>
  {
    None
  }

  /** The vertex loop of projects A and B: seven floats pushed per vertex. */
  method PushColorVerts(buf: seq<real>, vs: seq<ColorVertex>) returns (out: seq<real>)
    ensures out == buf + ColorVertsFloats(vs)
  {
    out := buf;
    var i := 0;
    while i < |vs|
      invariant 0 <= i <= |vs|
      invariant out == buf + ColorVertsFloats(vs[..i])
    {
      assert vs[..i + 1][..i] == vs[..i];
      out := out + ColorVertexFloats(vs[i]);
      i := i + 1;
    }
    assert vs[..i] == vs;
  }

  /** The body of project A/B `buildBuffer` for one mesh: vertices appended, start and count recorded. */
  method PlaceSimpleMesh(m: SimpleMesh, buf: seq<real>, ghost scene: set<SimpleMesh>) returns (out: seq<real>)
    requires m in scene && |buf| % 7 == 0
    modifies m`vboStart, m`vboCount
    ensures out == buf + ColorVertsFloats(m.verts)
    ensures SimpleSlots(scene) == old(SimpleSlots(scene))[m := NewSlot(m, |buf| / 7, |m.verts|, old(SimpleSlots(scene))[m], NoWire)]
    ensures SimpleGeo(scene) == old(SimpleGeo(scene))
  {
    ghost var S := SimpleSlots(scene);
    var start := |buf| / 7;
    out := PushColorVerts(buf, m.verts);
    WholeVertices(|buf|, 7, |m.verts|, |out|);
    SetSimpleRange(m, start, |out| / 7 - start, scene);
    assert NewSlot(m, start, |m.verts|, S[m], NoWire) == Slot(Some(start), Some(|m.verts|), None);
  }

  /** Records where the mesh's vertices start and how many there are. */
  method SetSimpleRange(m: SimpleMesh, start: nat, count: nat, ghost scene: set<SimpleMesh>)
    requires m in scene
    modifies m`vboStart, m`vboCount
    ensures SimpleSlots(scene) == old(SimpleSlots(scene))[m := Slot(Some(start), Some(count), None)]
    ensures SimpleGeo(scene) == old(SimpleGeo(scene))
  {
    m.vboStart := Some(start);
    m.vboCount := Some(count);
  }

  /** The first half of project B `buildBuffer`: the node's own mesh, placed unless its `vboStart` is set. */
  method BuildSimpleOwn(t: Node<SimpleMesh>, buf: seq<real>, ghost scene: set<SimpleMesh>) returns (out: seq<real>)
    requires |buf| % 7 == 0 && MeshSet(t) <= scene
    modifies scene
    ensures forall m :: m in Fresh(Own(t), Placed(old(SimpleSlots(scene)))) ==> m in MeshSet(t)
    ensures out == buf + Floats(Fresh(Own(t), Placed(old(SimpleSlots(scene)))), old(SimpleGeo(scene)), ColorVertsFloats)
    ensures SimpleSlots(scene) ==
            ApplyLayout(old(SimpleSlots(scene)), Fresh(Own(t), Placed(old(SimpleSlots(scene)))), |buf| / 7, old(SimpleGeo(scene)), NoWire)
    ensures SimpleGeo(scene) == old(SimpleGeo(scene))
  {
    ghost var S0, G := SimpleSlots(scene), SimpleGeo(scene);
    out := buf;
    if t.mesh.Some? && t.mesh.value.vboStart.None? {
      var m := t.mesh.value;
      out := PlaceSimpleMesh(m, out, scene);
      FreshOwn(m, S0);
      WalkOwn(m, S0, G, ColorVertsFloats, 7, NoWire, buf, out, SimpleSlots(scene));
    } else {
      assert Fresh(Own(t), Placed(S0)) == [];
    }
  }

  /** `buildBuffer` of project B: the guarded walk with seven floats per vertex. */
  method BuildSimpleBuffer(t: Node<SimpleMesh>, buf: seq<real>, ghost scene: set<SimpleMesh>) returns (out: seq<real>)
    requires |buf| % 7 == 0 && MeshSet(t) <= scene
    modifies scene
    ensures forall m :: m in ToPlace(t, old(SimpleSlots(scene))) ==> m in MeshSet(t)
    ensures out == buf + Floats(ToPlace(t, old(SimpleSlots(scene))), old(SimpleGeo(scene)), ColorVertsFloats)
    ensures SimpleSlots(scene) ==
            ApplyLayout(old(SimpleSlots(scene)), ToPlace(t, old(SimpleSlots(scene))), |buf| / 7, old(SimpleGeo(scene)), NoWire)
    ensures SimpleGeo(scene) == old(SimpleGeo(scene))
    decreases t
  {
    ghost var S0, G := SimpleSlots(scene), SimpleGeo(scene);
    VertsEncode();
    out := BuildSimpleOwn(t, buf, scene);
    WalkStart(t, true, S0, G, ColorVertsFloats, 7, NoWire, buf, out, SimpleSlots(scene));
    var k := 0;
    while k < |t.children|
      invariant Walked(t, k, true, S0, G, ColorVertsFloats, 7, NoWire, buf, out, SimpleSlots(scene))
      invariant SimpleGeo(scene) == G
    {
      ChildMeshes(t, k);
      ghost var prev, Sprev := out, SimpleSlots(scene);
      out := BuildSimpleBuffer(t.children[k], out, scene);
      WalkChild(t, k, true, S0, G, ColorVertsFloats, 7, NoWire, buf, prev, Sprev, out, SimpleSlots(scene));
      k := k + 1;
    }
    WalkDone(t, true, S0, G, ColorVertsFloats, 7, NoWire, buf, out, SimpleSlots(scene));
  }

  /** The first half of project A `buildBuffer`: the node's own mesh, placed whether or not it was before. */
  method BuildOwnUnguarded(t: Node<SimpleMesh>, buf: seq<real>, ghost scene: set<SimpleMesh>) returns (out: seq<real>)
    requires |buf| % 7 == 0 && MeshSet(t) <= scene
    modifies scene
    ensures out == buf + Floats(Own(t), old(SimpleGeo(scene)), ColorVertsFloats)
    ensures SimpleSlots(scene) == ApplyLayout(old(SimpleSlots(scene)), Own(t), |buf| / 7, old(SimpleGeo(scene)), NoWire)
    ensures SimpleGeo(scene) == old(SimpleGeo(scene))
  {
    ghost var S0, G := SimpleSlots(scene), SimpleGeo(scene);
    out := buf;
    if t.mesh.Some? {
      var m := t.mesh.value;
      out := PlaceSimpleMesh(m, out, scene);
      WalkOwn(m, S0, G, ColorVertsFloats, 7, NoWire, buf, out, SimpleSlots(scene));
    }
  }

  /**
   * `buildBuffer` of project A (both frameworks): no guard, so every mesh
   * occurrence of the pre-order walk is appended, shared meshes included.
   */
  method BuildBufferUnguarded(t: Node<SimpleMesh>, buf: seq<real>, ghost scene: set<SimpleMesh>) returns (out: seq<real>)
    requires |buf| % 7 == 0 && MeshSet(t) <= scene
    modifies scene
    ensures out == buf + Floats(MeshOcc(t), old(SimpleGeo(scene)), ColorVertsFloats)
    ensures SimpleSlots(scene) == ApplyLayout(old(SimpleSlots(scene)), MeshOcc(t), |buf| / 7, old(SimpleGeo(scene)), NoWire)
    ensures SimpleGeo(scene) == old(SimpleGeo(scene))
    decreases t
  {
    ghost var S0, G := SimpleSlots(scene), SimpleGeo(scene);
    VertsEncode();
    out := BuildOwnUnguarded(t, buf, scene);
    WalkStart(t, false, S0, G, ColorVertsFloats, 7, NoWire, buf, out, SimpleSlots(scene));
    var k := 0;
    while k < |t.children|
      invariant Walked(t, k, false, S0, G, ColorVertsFloats, 7, NoWire, buf, out, SimpleSlots(scene))
      invariant SimpleGeo(scene) == G
    {
      ChildMeshes(t, k);
      ghost var prev, Sprev := out, SimpleSlots(scene);
      out := BuildBufferUnguarded(t.children[k], out, scene);
      WalkChild(t, k, false, S0, G, ColorVertsFloats, 7, NoWire, buf, prev, Sprev, out, SimpleSlots(scene));
      k := k + 1;
    }
    WalkDone(t, false, S0, G, ColorVertsFloats, 7, NoWire, buf, out, SimpleSlots(scene));
  }

  // ---------------------------------------------------------------------
  // What the walks promise
  // ---------------------------------------------------------------------

  /**
   * Guarded walk (projects B and C): every mesh of the tree not placed
   * before is appended exactly once, however many nodes share it, and no
   * other mesh is; the buffer grows by `width` floats per vertex of those
   * meshes.
   */
  lemma GuardedAppendsEachOnce<M, V(!new)>(t: Node<M>, slots: map<M, Slot>, G: map<M, seq<V>>,
                                           enc: seq<V> -> seq<real>, width: nat, m: M)
    requires MeshSet(t) <= G.Keys && Encodes(enc, width)
    ensures Distinct(ToPlace(t, slots))
    ensures forall x :: x in ToPlace(t, slots) <==> x in MeshSet(t) && x !in Placed(slots)
    ensures Count(ToPlace(t, slots), m) == if m in MeshSet(t) && m !in Placed(slots) then 1 else 0
    ensures |Floats(ToPlace(t, slots), G, enc)| == width * VertTotal(ToPlace(t, slots), G)
  {
    FreshDistinct(MeshOcc(t), Placed(slots));
    FreshElems(MeshOcc(t), Placed(slots));
    SharedPlacedOnce(MeshOcc(t), Placed(slots), m);
    assert forall x :: x in ToPlace(t, slots) ==> x in MeshSet(t);
    FloatsLength(ToPlace(t, slots), G, enc, width);
  }

  /**
   * Guarded walk: after one walk every mesh of the tree is placed, so a
   * second walk over the same tree appends nothing and changes no slot.
   */
  lemma SecondBuildAppendsNothing<M, V>(t: Node<M>, slots: map<M, Slot>, base: nat, G: map<M, seq<V>>,
                                        wire: (M, nat, nat) -> Option<seq<nat>>, base2: nat)
    requires MeshSet(t) <= slots.Keys && MeshSet(t) <= G.Keys
    ensures forall x :: x in ToPlace(t, slots) ==> x in slots && x in G
    ensures var after := ApplyLayout(slots, ToPlace(t, slots), base, G, wire);
            ToPlace(t, after) == [] && ApplyLayout(after, ToPlace(t, after), base2, G, wire) == after
  {
    FreshElems(MeshOcc(t), Placed(slots));
    var after := ApplyLayout(slots, ToPlace(t, slots), base, G, wire);
    ApplyLayoutPlaced(slots, ToPlace(t, slots), base, G, wire);
    FreshAllSeen(MeshOcc(t), Placed(after));
  }

  /**
   * Guarded walk: the `j`-th appended mesh starts right after the meshes
   * appended before it, records its own vertex count, and the next one
   * starts where it ends; so the regions are contiguous and, by
   * `RegionsDisjoint`, do not overlap.
   */
  lemma GuardedLayout<M, V>(t: Node<M>, slots: map<M, Slot>, base: nat, G: map<M, seq<V>>,
                            wire: (M, nat, nat) -> Option<seq<nat>>, j: nat)
    requires MeshSet(t) <= slots.Keys && MeshSet(t) <= G.Keys
    requires j < |ToPlace(t, slots)|
    ensures forall x :: x in ToPlace(t, slots) ==> x in slots && x in G
    ensures var placed := ToPlace(t, slots);
            var slot := ApplyLayout(slots, placed, base, G, wire)[placed[j]];
            slot.vboStart == Some(base + VertTotal(placed[..j], G)) &&
            slot.vboCount == Some(|G[placed[j]]|) &&
            VertTotal(placed[..j + 1], G) == VertTotal(placed[..j], G) + |G[placed[j]]|
  {
    var placed := ToPlace(t, slots);
    FreshElems(MeshOcc(t), Placed(slots));
    FreshDistinct(MeshOcc(t), Placed(slots));
    assert forall x :: x in placed ==> x in MeshSet(t);
    ApplyLayoutAt(slots, placed, base, G, wire, j);
    assert placed[..j + 1] == placed[..j] + [placed[j]];
    VertTotalAppend(placed[..j], [placed[j]], G);
    assert [placed[j]][1..] == [];
  }

  /**
   * Unguarded walk (project A): the buffer holds every mesh occurrence, so
   * a mesh referenced by several nodes is written once per reference; the
   * slot of mesh `MeshOcc(t)[i]`, its last occurrence, is that of this
   * last write: start after the occurrences before it, its own count.
   */
  lemma UnguardedLastWins<M, V>(t: Node<M>, slots: map<M, Slot>, base: nat, G: map<M, seq<V>>,
                                wire: (M, nat, nat) -> Option<seq<nat>>, i: nat)
    requires MeshSet(t) <= slots.Keys && MeshSet(t) <= G.Keys
    requires i < |MeshOcc(t)| && forall j :: i < j < |MeshOcc(t)| ==> MeshOcc(t)[j] != MeshOcc(t)[i]
    ensures var occ := MeshOcc(t);
            var slot := ApplyLayout(slots, occ, base, G, wire)[occ[i]];
            slot.vboStart == Some(base + VertTotal(occ[..i], G)) && slot.vboCount == Some(|G[occ[i]]|)
  {
    ApplyLayoutLast(slots, MeshOcc(t), base, G, wire, i);
  }

  /** Unguarded walk: `width` floats for every vertex of every occurrence, shared meshes counted each time. */
  lemma UnguardedLength<M, V(!new)>(t: Node<M>, G: map<M, seq<V>>, enc: seq<V> -> seq<real>, width: nat)
    requires MeshSet(t) <= G.Keys && Encodes(enc, width)
    ensures |Floats(MeshOcc(t), G, enc)| == width * VertTotal(MeshOcc(t), G)
  {
    FloatsLength(MeshOcc(t), G, enc, width);
  }
}
