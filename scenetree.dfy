/**
 * The scene graph as a tree value: every `SceneGraphNode` reachable from a
 * root through `children`, with the mesh references it holds. The tree is a
 * snapshot of the node objects at the moment a traversal runs; the meshes
 * stay objects, so two nodes that share a mesh hold the same reference.
 */
module SceneTree {
  import opened Common

  /** Project B/C nodes rotate by a quaternion, project A nodes by Euler angles. */
  datatype Rotation = Quat(qx: real, qy: real, qz: real, qw: real) | Euler(angles: Vec3)

  /** `new Quaternion()` and `new Quaternion(0, 0, 0, 1)`: no rotation. */
  const IdentityQuat := Quat(0.0, 0.0, 0.0, 1.0)
  /** `new Rot(0, 0, 0)`. */
  const ZeroEuler := Euler(Origin)

  /**
   * A scene-graph node. `parentDefined` is false when the node's `parent`
   * field is `undefined` (a root built without a parent argument, and every
   * project A node); the DOT export asks. Project A's second framework has
   * no `enabled` field; its drawing ignores the flag.
   */
  datatype Node<M> = Node(
    name: string,
    pos: Vec3,
    rot: Rotation,
    scale: Vec3,
    mesh: Option<M>,
    enabled: bool,
    parentDefined: bool,
    children: seq<Node<M>>)

  /** The node's own mesh reference, if any, as a sequence. */
  function Own<M>(t: Node<M>): seq<M>
  {
    if t.mesh.Some? then [t.mesh.value] else []
  }

  /** The mesh references met in a pre-order walk, one per mesh-bearing node. */
  function MeshOcc<M>(t: Node<M>): seq<M>
  {
    Own(t) + MeshOccList(t.children)
  }

  function MeshOccList<M>(ts: seq<Node<M>>): seq<M>
  {
    if ts == [] then [] else MeshOcc(ts[0]) + MeshOccList(ts[1..])
  }

  /** The elements of a sequence, as a set. */
  function Elems<M>(s: seq<M>): set<M>
  {
    set m | m in s
  }

  lemma ElemsAppend<M>(a: seq<M>, b: seq<M>)
    ensures Elems(a + b) == Elems(a) + Elems(b)
  {
  }

  /** The meshes referenced anywhere in the tree. */
  function MeshSet<M>(t: Node<M>): set<M>
  {
    Elems(MeshOcc(t))
  }

  lemma {:induction false} MeshOccListAppend<M>(a: seq<Node<M>>, b: seq<Node<M>>)
    ensures MeshOccList(a + b) == MeshOccList(a) + MeshOccList(b)
  {
    if a == [] {
      assert a + b == b;
    } else {
      assert (a + b)[0] == a[0] && (a + b)[1..] == a[1..] + b;
      MeshOccListAppend(a[1..], b);
    }
  }

  /** Mesh occurrences of the node itself and its first `k` children. */
  lemma MeshOccPrefix<M>(t: Node<M>, k: nat)
    requires k < |t.children|
    ensures MeshOccList(t.children[..k + 1]) == MeshOccList(t.children[..k]) + MeshOcc(t.children[k])
  {
    assert t.children[..k + 1] == t.children[..k] + [t.children[k]];
    MeshOccListAppend(t.children[..k], [t.children[k]]);
    assert MeshOccList([t.children[k]]) == MeshOcc(t.children[k]) + MeshOccList([]);
  }

  lemma {:induction false} MeshOccListSub<M>(ts: seq<Node<M>>, k: nat)
    requires k < |ts|
    ensures forall m :: m in MeshOcc(ts[k]) ==> m in MeshOccList(ts)
  {
    if k > 0 {
      MeshOccListSub(ts[1..], k - 1);
    }
  }

  /** Every child's meshes are meshes of the parent. */
  lemma ChildMeshes<M>(t: Node<M>, k: nat)
    requires k < |t.children|
    ensures MeshSet(t.children[k]) <= MeshSet(t)
  {
    MeshOccListSub(t.children, k);
  }

  /**
   * The distinct elements of `occ` that are not in `seen`, in order of first
   * occurrence: the meshes a guarded walk places, or a JavaScript `Set`
   * collects, when it starts with `seen` already present.
   */
  function Fresh<M(==)>(occ: seq<M>, seen: set<M>): seq<M>
  {
    if occ == [] then []
    else if occ[0] in seen then Fresh(occ[1..], seen)
    else [occ[0]] + Fresh(occ[1..], seen + {occ[0]})
  }

  /** `Fresh` keeps exactly the unseen elements. */
  lemma {:induction false} FreshElems<M>(occ: seq<M>, seen: set<M>)
    ensures forall m :: m in Fresh(occ, seen) ==> m in occ && m !in seen
    ensures forall m :: m in occ && m !in seen ==> m in Fresh(occ, seen)
  {
    if occ != [] {
      if occ[0] in seen {
        FreshElems(occ[1..], seen);
      } else {
        FreshElems(occ[1..], seen + {occ[0]});
      }
    }
  }

  predicate Distinct<M(==)>(s: seq<M>)
  {
    forall i, j :: 0 <= i < j < |s| ==> s[i] != s[j]
  }

  /** `Fresh` never lists an element twice. */
  lemma {:induction false} FreshDistinct<M>(occ: seq<M>, seen: set<M>)
    ensures Distinct(Fresh(occ, seen))
  {
    if occ != [] {
      if occ[0] in seen {
        FreshDistinct(occ[1..], seen);
      } else {
        var rest := Fresh(occ[1..], seen + {occ[0]});
        FreshDistinct(occ[1..], seen + {occ[0]});
        FreshElems(occ[1..], seen + {occ[0]});
        assert occ[0] !in rest;
      }
    }
  }

  /** A walk over `a` then `b` places what `a` places, then what `b` places afterwards. */
  lemma {:induction false} FreshAppend<M>(a: seq<M>, b: seq<M>, seen: set<M>)
    ensures Fresh(a + b, seen) == Fresh(a, seen) + Fresh(b, seen + Elems(Fresh(a, seen)))
  {
    if a == [] {
      assert a + b == b;
      assert Elems(Fresh(a, seen)) == {};
      assert seen + {} == seen;
    } else {
      assert (a + b)[0] == a[0] && (a + b)[1..] == a[1..] + b;
      if a[0] in seen {
        FreshAppend(a[1..], b, seen);
      } else {
        FreshAppend(a[1..], b, seen + {a[0]});
        assert (seen + {a[0]}) + Elems(Fresh(a[1..], seen + {a[0]})) == seen + Elems(Fresh(a, seen));
      }
    }
  }

  /** Only the members of `seen` that occur in `occ` matter. */
  lemma {:induction false} FreshRestrict<M>(occ: seq<M>, s1: set<M>, s2: set<M>)
    requires forall m :: m in occ ==> (m in s1 <==> m in s2)
    ensures Fresh(occ, s1) == Fresh(occ, s2)
  {
    if occ != [] {
      if occ[0] in s1 {
        FreshRestrict(occ[1..], s1, s2);
      } else {
        FreshRestrict(occ[1..], s1 + {occ[0]}, s2 + {occ[0]});
      }
    }
  }

  /** A walk in which every mesh is already placed places nothing. */
  lemma {:induction false} FreshAllSeen<M>(occ: seq<M>, seen: set<M>)
    requires forall m :: m in occ ==> m in seen
    ensures Fresh(occ, seen) == []
  {
    if occ != [] {
      FreshAllSeen(occ[1..], seen);
    }
  }

  /** A mesh not yet seen is placed exactly once, however often it is referenced; a seen one not at all. */
  lemma SharedPlacedOnce<M>(occ: seq<M>, seen: set<M>, m: M)
    ensures Count(Fresh(occ, seen), m) == if m in occ && m !in seen then 1 else 0
  {
    FreshElems(occ, seen);
    FreshDistinct(occ, seen);
    if m in occ && m !in seen {
      DistinctCountOne(Fresh(occ, seen), m);
    } else {
      CountAbsent(Fresh(occ, seen), m);
    }
  }

  lemma {:induction false} DistinctCountOne<M>(s: seq<M>, m: M)
    requires Distinct(s) && m in s
    ensures Count(s, m) == 1
  {
    if s[0] == m {
      CountAbsent(s[1..], m);
    } else {
      DistinctCountOne(s[1..], m);
    }
  }

  lemma {:induction false} CountAbsent<M>(s: seq<M>, m: M)
    requires m !in s
    ensures Count(s, m) == 0
  {
    if s != [] {
      CountAbsent(s[1..], m);
    }
  }

  /** Index of the last occurrence of `m` in `s`. */
  function LastIndex<M(==)>(s: seq<M>, m: M): (i: nat)
    requires m in s
    ensures i < |s| && s[i] == m
    ensures forall j :: i < j < |s| ==> s[j] != m
  {
    if s[|s| - 1] == m then |s| - 1
    else
      assert m in s[..|s| - 1] by {
        var k :| 0 <= k < |s| && s[k] == m;
        assert s[..|s| - 1][k] == m;
      }
      LastIndex(s[..|s| - 1], m)
  }
}
