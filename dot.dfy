/**
 * The DOT export `getSceneGraphDotString` and its two helpers (identical
 * in projects B and C). Every `dotString += ...` appends one line of the
 * graph; the model records which line (a `Line`), and `Render` gives its
 * exact text, so the string the functions return is the concatenation of
 * the rendered lines. The mesh helper's `Set` is shared by every recursive
 * call, so it is threaded through as an insertion-ordered sequence.
 */
module Dot {
  import opened Common
  import opened SceneTree

  /** `s.replace("-", "_")`: a string pattern replaces only its first match. */
  function ReplaceFirst(s: string): (r: string)
    ensures |r| == |s|
  {
    if s == [] then []
    else if s[0] == '-' then ['_'] + s[1..]
    else [s[0]] + ReplaceFirst(s[1..])
  }

  /** A name without `-` is unchanged; otherwise only the first `-` becomes `_`, so the result keeps a `-` exactly when there were two. */
  lemma {:induction false} ReplaceFirstDashes(s: string)
    ensures Count(s, '-') == 0 ==> ReplaceFirst(s) == s
    ensures Count(ReplaceFirst(s), '-') == if Count(s, '-') == 0 then 0 else Count(s, '-') - 1
    ensures Count(ReplaceFirst(s), '_') == if Count(s, '-') == 0 then Count(s, '_') else Count(s, '_') + 1
  {
    if s != [] {
      var r := ReplaceFirst(s);
      if s[0] == '-' {
        assert r[0] == '_' && r[1..] == s[1..];
      } else {
        ReplaceFirstDashes(s[1..]);
        assert r[0] == s[0] && r[1..] == ReplaceFirst(s[1..]);
      }
    }
  }

  /** Example of `ReplaceFirstDashes`: a node named `arm-1-a` is written `arm_1-a`. */
  lemma ReplaceFirstExample()
    ensures ReplaceFirst("arm-1-a") == "arm_1-a"
  {
  }

  /** `"    ".repeat(n)`. */
  function Indent(n: nat): (r: string)
    ensures |r| == 4 * n
  {
    if n == 0 then "" else "    " + Indent(n - 1)
  }

  /** The lines of the DOT text, by what they say. */
  datatype Line =
    | Header
    | TransformToGroup(name: string, indent: nat)
    | GroupLabel(name: string, indent: nat)
    | ClusterOpen(cc: nat, indent: nat)
    | ClusterStyle(indent: nat)
    | GroupEdge(name: string, child: string, indent: nat)
    | ClusterClose(indent: nat)
    | TransformLabel(name: string, indent: nat)
    | MeshEdge(node: string, mesh: string)
    | MeshDeclaration(mesh: string)
    | Footer

  function Id(name: string): string { ReplaceFirst(name) }

  /** The exact text each line contributes to the string. */
  function Render(l: Line): string
  {
    match l
    case Header => "digraph G {\n    graph [pad=\"0.5\", nodesep=\"1\", ranksep=\"5\"];\n"
    case TransformToGroup(name, indent) =>
      Indent(indent) + Id(name) + "Transform" + " -> " + Id(name) + "Group" + " [color=darkgreen];\n"
    case GroupLabel(name, indent) =>
      Indent(indent) + Id(name) + "Group" + " [label=\"'" + Id(name) + "' Group\", style=filled, fillcolor=darkgreen];\n"
    case ClusterOpen(cc, indent) => Indent(indent) + "subgraph cluster_" + NatToString(cc) + " {\n"
    case ClusterStyle(indent) => Indent(indent) + "style=invis;\n"
    case GroupEdge(name, child, indent) =>
      Indent(indent) + Id(name) + "Group" + " -> " + Id(child) + "Transform" + " [color=darkgoldenrod4];\n"
    case ClusterClose(indent) => Indent(indent) + "}\n"
    case TransformLabel(name, indent) =>
      Indent(indent) + Id(name) + "Transform" + " [label=\"'" + Id(name) + "' Transform\", fillcolor=darkgoldenrod4, shape=invtrapezium, style=filled];\n"
    case MeshEdge(node, mesh) => "    " + Id(node) + "Transform" + " -> " + Id(mesh) + "Mesh [color=firebrick4];\n"
    case MeshDeclaration(mesh) => "    " + Id(mesh) + "Mesh [fillcolor=firebrick4, shape=trapezium, style=filled];\n"
    case Footer => "}\n"
  }

  /** The four lines that open a node's group and its cluster numbered `cc`. */
  function GroupHead(name: string, cc: nat, indent: nat): seq<Line>
  {
    [TransformToGroup(name, indent), GroupLabel(name, indent), ClusterOpen(cc, indent), ClusterStyle(indent + 1)]
  }

  /** The edges from a group to its first `k` children's transforms. */
  function GroupEdges<M>(t: Node<M>, k: nat, indent: nat): (r: seq<Line>)
    requires k <= |t.children|
    ensures |r| == k
  {
    seq(k, j requires 0 <= j < k => GroupEdge(t.name, t.children[j].name, indent))
  }

  /** What the subgraph helper returns: its pieces and the next free cluster number. */
  datatype DotOut = DotOut(pieces: seq<Line>, clusterCount: nat)

  /** `getSceneGraphDotStringSubGraph(t, cc, indent)`. */
  function SubGraph<M>(t: Node<M>, cc: nat, indent: nat): DotOut
    decreases t, 1
  {
    if |t.children| > 0 then
      var inner := SubGraphChildren(t, |t.children|, cc + 1, indent + 1);
      DotOut(GroupHead(t.name, cc, indent) + inner.pieces + GroupEdges(t, |t.children|, indent) +
             [ClusterClose(indent), TransformLabel(t.name, indent)],
             inner.clusterCount)
    else DotOut([TransformLabel(t.name, indent)], cc)
  }

  /** The subgraphs of the first `k` children, the cluster counter threaded through. */
  function SubGraphChildren<M>(t: Node<M>, k: nat, cc: nat, indent: nat): DotOut
    requires k <= |t.children|
    decreases t, 0, k
  {
    if k == 0 then DotOut([], cc)
    else
      var prev := SubGraphChildren(t, k - 1, cc, indent);
      var out := SubGraph(t.children[k - 1], prev.clusterCount, indent);
      DotOut(prev.pieces + out.pieces, out.clusterCount)
  }

  /** The nodes of the tree that have at least one child. */
  function Groups<M>(t: Node<M>): nat
    decreases t, 1
  {
    (if |t.children| > 0 then 1 else 0) + GroupsChildren(t, |t.children|)
  }

  function GroupsChildren<M>(t: Node<M>, k: nat): nat
    requires k <= |t.children|
    decreases t, 0, k
  {
    if k == 0 then 0 else GroupsChildren(t, k - 1) + Groups(t.children[k - 1])
  }

  /** The returned counter is the incoming one plus one cluster per node that has children. */
  lemma {:induction false} ClusterCount<M>(t: Node<M>, cc: nat, indent: nat)
    ensures SubGraph(t, cc, indent).clusterCount == cc + Groups(t)
    decreases t, 1
  {
    if |t.children| > 0 {
      ClusterCountChildren(t, |t.children|, cc + 1, indent + 1);
    }
  }

  lemma {:induction false} ClusterCountChildren<M>(t: Node<M>, k: nat, cc: nat, indent: nat)
    requires k <= |t.children|
    ensures SubGraphChildren(t, k, cc, indent).clusterCount == cc + GroupsChildren(t, k)
    decreases t, 0, k
  {
    if k > 0 {
      ClusterCountChildren(t, k - 1, cc, indent);
      ClusterCount(t.children[k - 1], SubGraphChildren(t, k - 1, cc, indent).clusterCount, indent);
    }
  }

  /** A leaf contributes only its transform node; a node with children ends with its transform node too. */
  lemma SubGraphShape<M>(t: Node<M>, cc: nat, indent: nat)
    ensures var out := SubGraph(t, cc, indent);
            |out.pieces| >= 1 && out.pieces[|out.pieces| - 1] == TransformLabel(t.name, indent)
    ensures t.children == [] ==> SubGraph(t, cc, indent) == DotOut([TransformLabel(t.name, indent)], cc)
    ensures |t.children| > 0 ==> SubGraph(t, cc, indent).pieces[..4] == GroupHead(t.name, cc, indent)
  {
  }

  /** `getSceneGraphDotStringSubGraph`, with its two loops over the children. */
  method GetSceneGraphDotStringSubGraph<M>(t: Node<M>, clusterCount: nat, indent: nat) returns (out: DotOut)
    ensures out == SubGraph(t, clusterCount, indent)
    decreases t
  {
    var dotString: seq<Line> := [];
    var cc := clusterCount;
    if |t.children| > 0 {
      dotString := GroupHead(t.name, cc, indent);
      cc := cc + 1;
      var k := 0;
      while k < |t.children|
        invariant k <= |t.children|
        invariant dotString == GroupHead(t.name, clusterCount, indent) + SubGraphChildren(t, k, clusterCount + 1, indent + 1).pieces
        invariant cc == SubGraphChildren(t, k, clusterCount + 1, indent + 1).clusterCount
      {
        var output := GetSceneGraphDotStringSubGraph(t.children[k], cc, indent + 1);
        SubGraphChildrenStep(t, k, clusterCount + 1, indent + 1, GroupHead(t.name, clusterCount, indent));
        dotString := dotString + output.pieces;
        cc := output.clusterCount;
        k := k + 1;
      }
      ghost var body := dotString;
      var j := 0;
      while j < |t.children|
        invariant j <= |t.children|
        invariant dotString == body + GroupEdges(t, j, indent)
      {
        dotString := dotString + [GroupEdge(t.name, t.children[j].name, indent)];
        j := j + 1;
      }
      dotString := dotString + [ClusterClose(indent)];
      dotString := dotString + [TransformLabel(t.name, indent)];
      ghost var inner := SubGraphChildren(t, |t.children|, clusterCount + 1, indent + 1);
      SubGraphTail(GroupHead(t.name, clusterCount, indent) + inner.pieces, GroupEdges(t, |t.children|, indent),
                   ClusterClose(indent), TransformLabel(t.name, indent));
    } else {
      dotString := dotString + [TransformLabel(t.name, indent)];
    }
    out := DotOut(dotString, cc);
  }

  /** One more child's subgraph extends the pieces of the earlier ones. */
  lemma SubGraphChildrenStep<M>(t: Node<M>, k: nat, cc: nat, indent: nat, head: seq<Line>)
    requires k < |t.children|
    ensures var prev := SubGraphChildren(t, k, cc, indent);
            var next := SubGraphChildren(t, k + 1, cc, indent);
            var out := SubGraph(t.children[k], prev.clusterCount, indent);
            head + prev.pieces + out.pieces == head + next.pieces && next.clusterCount == out.clusterCount
  {
    var prev := SubGraphChildren(t, k, cc, indent);
    AppendAssoc(head, prev.pieces, SubGraph(t.children[k], prev.clusterCount, indent).pieces);
  }

  lemma SubGraphTail(body: seq<Line>, edges: seq<Line>, close: Line, last: Line)
    ensures body + edges + [close] + [last] == body + edges + [close, last]
  {
  }

  /** One declaration per mesh of `ms`, in order. */
  function Declarations<M>(ms: seq<M>, nameOf: M -> string): (r: seq<Line>)
    ensures |r| == |ms|
  {
    seq(|ms|, j requires 0 <= j < |ms| => MeshDeclaration(nameOf(ms[j])))
  }

  lemma DeclarationsStep<M>(ms: seq<M>, j: nat, nameOf: M -> string, body: seq<Line>)
    requires j < |ms|
    ensures body + Declarations(ms[..j], nameOf) + [MeshDeclaration(nameOf(ms[j]))] == body + Declarations(ms[..j + 1], nameOf)
  {
    assert Declarations(ms[..j], nameOf) + [MeshDeclaration(nameOf(ms[j]))] == Declarations(ms[..j + 1], nameOf);
    AppendAssoc(body, Declarations(ms[..j], nameOf), [MeshDeclaration(nameOf(ms[j]))]);
  }

  /** What the mesh helper produces, and the shared set of meshes afterwards. */
  datatype MeshOut<M> = MeshOut(pieces: seq<Line>, covered: seq<M>)

  /** `getSceneGraphDotStringMeshes(t, covered)`. */
  function Meshes<M(==)>(t: Node<M>, covered: seq<M>, nameOf: M -> string): MeshOut<M>
    decreases t, 1
  {
    var edge := if t.mesh.Some? then [MeshEdge(t.name, nameOf(t.mesh.value))] else [];
    var added := if t.mesh.Some? && t.mesh.value !in covered then covered + [t.mesh.value] else covered;
    var inner := MeshesChildren(t, |t.children|, added, nameOf);
    MeshOut(edge + inner.pieces + (if t.parentDefined then [] else Declarations(inner.covered, nameOf)), inner.covered)
  }

  function MeshesChildren<M(==)>(t: Node<M>, k: nat, covered: seq<M>, nameOf: M -> string): MeshOut<M>
    requires k <= |t.children|
    decreases t, 0, k
  {
    if k == 0 then MeshOut([], covered)
    else
      var prev := MeshesChildren(t, k - 1, covered, nameOf);
      var out := Meshes(t.children[k - 1], prev.covered, nameOf);
      MeshOut(prev.pieces + out.pieces, out.covered)
  }

  /** `getSceneGraphDotStringMeshes`; the shared `Set` is passed in and handed back. */
  method GetSceneGraphDotStringMeshes<M(==)>(t: Node<M>, coveredMeshes: seq<M>, nameOf: M -> string) returns (out: MeshOut<M>)
    ensures out == Meshes(t, coveredMeshes, nameOf)
    decreases t
  {
    var dotString: seq<Line> := [];
    var covered := coveredMeshes;
    if t.mesh.Some? {
      if t.mesh.value !in covered {
        covered := covered + [t.mesh.value];
      }
      dotString := dotString + [MeshEdge(t.name, nameOf(t.mesh.value))];
    }
    ghost var own := dotString;
    ghost var added := covered;
    assert own == if t.mesh.Some? then [MeshEdge(t.name, nameOf(t.mesh.value))] else [];
    var k := 0;
    while k < |t.children|
      invariant k <= |t.children|
      invariant dotString == own + MeshesChildren(t, k, added, nameOf).pieces
      invariant covered == MeshesChildren(t, k, added, nameOf).covered
    {
      var output := GetSceneGraphDotStringMeshes(t.children[k], covered, nameOf);
      MeshesChildrenStep(t, k, added, nameOf, own);
      dotString := dotString + output.pieces;
      covered := output.covered;
      k := k + 1;
    }
    if !t.parentDefined {
      dotString := AppendDeclarations(dotString, covered, nameOf);
    }
    assert k == |t.children|;
    out := MeshOut(dotString, covered);
  }

  /** One more child's mesh pieces extend those of the earlier ones. */
  lemma MeshesChildrenStep<M>(t: Node<M>, k: nat, covered: seq<M>, nameOf: M -> string, head: seq<Line>)
    requires k < |t.children|
    ensures var prev := MeshesChildren(t, k, covered, nameOf);
            var next := MeshesChildren(t, k + 1, covered, nameOf);
            var out := Meshes(t.children[k], prev.covered, nameOf);
            head + prev.pieces + out.pieces == head + next.pieces && next.covered == out.covered
  {
    var prev := MeshesChildren(t, k, covered, nameOf);
    AppendAssoc(head, prev.pieces, Meshes(t.children[k], prev.covered, nameOf).pieces);
  }

  /** The helper's `for (let mesh of coveredMeshes)` loop: one declaration per mesh, in insertion order. */
  method AppendDeclarations<M>(body: seq<Line>, covered: seq<M>, nameOf: M -> string) returns (dotString: seq<Line>)
    ensures dotString == body + Declarations(covered, nameOf)
  {
    dotString := body;
    var j := 0;
    while j < |covered|
      invariant j <= |covered|
      invariant dotString == body + Declarations(covered[..j], nameOf)
    {
      DeclarationsStep(covered, j, nameOf, body);
      dotString := dotString + [MeshDeclaration(nameOf(covered[j]))];
      j := j + 1;
    }
    assert covered[..j] == covered;
  }

  /** `getSceneGraphDotString(t)`, as its pieces. */
  function DotPieces<M(==)>(t: Node<M>, nameOf: M -> string): seq<Line>
  {
    [Header] + SubGraph(t, 0, 1).pieces + Meshes(t, [], nameOf).pieces + [Footer]
  }

  /** The texts of the lines, in order. */
  function Texts(lines: seq<Line>): (r: seq<string>)
    ensures |r| == |lines|
  {
    seq(|lines|, i requires 0 <= i < |lines| => Render(lines[i]))
  }

  /** Strings joined end to end. */
  function Join(ss: seq<string>): string
  {
    if ss == [] then "" else ss[0] + Join(ss[1..])
  }

  /** The rendered lines, concatenated: the string JavaScript builds. */
  function Concat(lines: seq<Line>): string
  {
    Join(Texts(lines))
  }

  /** `getSceneGraphDotString(t)`. */
  method GetSceneGraphDotString<M(==)>(t: Node<M>, nameOf: M -> string) returns (dot: string)
    ensures dot == Concat(DotPieces(t, nameOf))
  {
    var output := GetSceneGraphDotStringSubGraph(t, 0, 1);
    var meshes := GetSceneGraphDotStringMeshes(t, [], nameOf);
    dot := Concat([Header] + output.pieces + meshes.pieces + [Footer]);
  }

  /**
   * The shared set gains the subtree's meshes not already in it, in order
   * of first visit, as `Set.add` keeps insertion order.
   */
  lemma {:induction false} MeshesCovered<M>(t: Node<M>, covered: seq<M>, nameOf: M -> string)
    ensures Meshes(t, covered, nameOf).covered == covered + Fresh(MeshOcc(t), Elems(covered))
    decreases t, 1
  {
    var added := if t.mesh.Some? && t.mesh.value !in covered then covered + [t.mesh.value] else covered;
    MeshesChildrenCovered(t, |t.children|, added, nameOf);
    FreshAppend(Own(t), MeshOccList(t.children), Elems(covered));
    assert t.children[..|t.children|] == t.children;
    assert added == covered + Fresh(Own(t), Elems(covered));
    ElemsAppend(covered, Fresh(Own(t), Elems(covered)));
  }

  lemma {:induction false} MeshesChildrenCovered<M>(t: Node<M>, k: nat, covered: seq<M>, nameOf: M -> string)
    requires k <= |t.children|
    ensures MeshesChildren(t, k, covered, nameOf).covered == covered + Fresh(MeshOccList(t.children[..k]), Elems(covered))
    decreases t, 0, k
  {
    if k == 0 {
      assert t.children[..0] == [];
    } else {
      MeshesChildrenCovered(t, k - 1, covered, nameOf);
      var before := Fresh(MeshOccList(t.children[..k - 1]), Elems(covered));
      var prev := MeshesChildren(t, k - 1, covered, nameOf);
      assert prev.covered == covered + before;
      MeshesCovered(t.children[k - 1], covered + before, nameOf);
      ElemsAppend(covered, before);
      var later := Fresh(MeshOcc(t.children[k - 1]), Elems(covered) + Elems(before));
      assert MeshesChildren(t, k, covered, nameOf).covered == (covered + before) + later;
      MeshOccPrefix(t, k - 1);
      FreshAppend(MeshOccList(t.children[..k - 1]), MeshOcc(t.children[k - 1]), Elems(covered));
      assert Fresh(MeshOccList(t.children[..k]), Elems(covered)) == before + later;
      AppendAssoc(covered, before, later);
    }
  }

  /** Every node below `t` has a defined `parent`, as constructor-built subtrees do. */
  predicate Parented<M>(t: Node<M>)
    decreases t, 1
  {
    ParentedChildren(t, |t.children|)
  }

  predicate ParentedChildren<M>(t: Node<M>, k: nat)
    requires k <= |t.children|
    decreases t, 0, k
  {
    k == 0 || (ParentedChildren(t, k - 1) && t.children[k - 1].parentDefined && Parented(t.children[k - 1]))
  }

  /** The `Transform -> Mesh` edges of the subtree, one per mesh-bearing node, in pre-order. */
  function MeshEdges<M>(t: Node<M>, nameOf: M -> string): seq<Line>
    decreases t, 1
  {
    (if t.mesh.Some? then [MeshEdge(t.name, nameOf(t.mesh.value))] else []) + MeshEdgesChildren(t, |t.children|, nameOf)
  }

  function MeshEdgesChildren<M>(t: Node<M>, k: nat, nameOf: M -> string): seq<Line>
    requires k <= |t.children|
    decreases t, 0, k
  {
    if k == 0 then [] else MeshEdgesChildren(t, k - 1, nameOf) + MeshEdges(t.children[k - 1], nameOf)
  }

  /** One edge per mesh reference. */
  lemma {:induction false} MeshEdgesCount<M>(t: Node<M>, nameOf: M -> string)
    ensures |MeshEdges(t, nameOf)| == |MeshOcc(t)|
    decreases t, 1
  {
    MeshEdgesChildrenCount(t, |t.children|, nameOf);
    assert t.children[..|t.children|] == t.children;
  }

  lemma {:induction false} MeshEdgesChildrenCount<M>(t: Node<M>, k: nat, nameOf: M -> string)
    requires k <= |t.children|
    ensures |MeshEdgesChildren(t, k, nameOf)| == |MeshOccList(t.children[..k])|
    decreases t, 0, k
  {
    if k == 0 {
      assert t.children[..0] == [];
    } else {
      MeshEdgesChildrenCount(t, k - 1, nameOf);
      MeshEdgesCount(t.children[k - 1], nameOf);
      MeshOccPrefix(t, k - 1);
    }
  }

  /**
   * In a subtree whose nodes below the top all have a parent, the helper
   * emits the mesh edges in pre-order and then, only if the top's `parent`
   * is `undefined`, one declaration per mesh in the shared set.
   */
  lemma {:induction false} MeshesPieces<M>(t: Node<M>, covered: seq<M>, nameOf: M -> string)
    requires Parented(t)
    ensures Meshes(t, covered, nameOf).pieces ==
            MeshEdges(t, nameOf) + (if t.parentDefined then [] else Declarations(Meshes(t, covered, nameOf).covered, nameOf))
    decreases t, 1
  {
    var added := if t.mesh.Some? && t.mesh.value !in covered then covered + [t.mesh.value] else covered;
    MeshesChildrenPieces(t, |t.children|, added, nameOf);
  }

  lemma {:induction false} MeshesChildrenPieces<M>(t: Node<M>, k: nat, covered: seq<M>, nameOf: M -> string)
    requires k <= |t.children| && ParentedChildren(t, k)
    ensures MeshesChildren(t, k, covered, nameOf).pieces == MeshEdgesChildren(t, k, nameOf)
    decreases t, 0, k
  {
    if k > 0 {
      MeshesChildrenPieces(t, k - 1, covered, nameOf);
      MeshesPieces(t.children[k - 1], MeshesChildren(t, k - 1, covered, nameOf).covered, nameOf);
    }
  }

  /**
   * For a root built without a parent: every mesh reference gets its edge,
   * and each distinct mesh is declared exactly once, in first-visit order,
   * after all the edges.
   */
  lemma RootDeclaresEachMeshOnce<M>(t: Node<M>, nameOf: M -> string)
    requires !t.parentDefined && Parented(t)
    ensures Meshes(t, [], nameOf).pieces == MeshEdges(t, nameOf) + Declarations(Fresh(MeshOcc(t), {}), nameOf)
    ensures |MeshEdges(t, nameOf)| == |MeshOcc(t)|
    ensures Distinct(Fresh(MeshOcc(t), {}))
    ensures forall m :: m in Fresh(MeshOcc(t), {}) <==> m in MeshOcc(t)
  {
    MeshesPieces(t, [], nameOf);
    MeshesCovered(t, [], nameOf);
    assert Elems<M>([]) == {};
    MeshEdgesCount(t, nameOf);
    FreshDistinct(MeshOcc(t), {});
    FreshElems(MeshOcc(t), {});
  }
}
