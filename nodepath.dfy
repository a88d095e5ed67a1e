/**
 * `getNodePath` and the scale part of `getTransform` (projects B and C):
 * climbing `parent` links to the top, recording each node's position among
 * its parent's children, then walking the recorded positions back down from
 * the scene's root while multiplying scales.
 */
module NodePath {
  import opened Common
  import opened Registry

  /** `Array.prototype.indexOf`: the first position of `x` in `s`, or -1. */
  function IndexOf<T(==)>(s: seq<T>, x: T): (r: int)
    ensures r == -1 <==> x !in s
    ensures r != -1 ==> 0 <= r < |s| && s[r] == x && x !in s[..r]
  {
    if s == [] then -1
    else if s[0] == x then 0
    else
      var k := IndexOf(s[1..], x);
      if k == -1 then -1
      else
        assert s[..k + 1] == [s[0]] + s[1..][..k];
        k + 1
  }

  /** The topmost ancestor of `i`, reached by following truthy `parent` links. */
  function Top<M>(nodes: seq<NodeObject<M>>, i: nat): (t: nat)
    requires Shaped(nodes) && i < |nodes|
    ensures t <= i && !nodes[t].parent.Of?
    decreases i
  {
    if nodes[i].parent.Of? then Top(nodes, nodes[i].parent.index) else i
  }

  /** The number of truthy `parent` links above `i`. */
  function Depth<M>(nodes: seq<NodeObject<M>>, i: nat): nat
    requires Shaped(nodes) && i < |nodes|
    decreases i
  {
    if nodes[i].parent.Of? then Depth(nodes, nodes[i].parent.index) + 1 else 0
  }

  /** The path `getNodePath` promises: each ancestor's position among its parent's children, top first. */
  function PathTo<M>(nodes: seq<NodeObject<M>>, i: nat): seq<int>
    requires Shaped(nodes) && i < |nodes|
    decreases i
  {
    if nodes[i].parent.Of? then
      var p := nodes[i].parent.index;
      PathTo(nodes, p) + [IndexOf(nodes[p].children, i)]
    else []
  }

  /** The node reached from `from` by `children[path[0]]`, `children[path[1]]`, … ; `None` once an index misses. */
  function Follow<M>(nodes: seq<NodeObject<M>>, from: nat, path: seq<int>): (r: Option<nat>)
    requires Shaped(nodes) && from < |nodes|
    ensures r.Some? ==> r.value < |nodes|
    decreases |path|
  {
    if path == [] then Some(from)
    else
      match Follow(nodes, from, path[..|path| - 1])
      case None => None
      case Some(n) =>
        var k := path[|path| - 1];
        if 0 <= k < |nodes[n].children| then Some(nodes[n].children[k]) else None
  }

  /**
   * `getNodePath(target)`: an empty path for a node without a truthy parent;
   * otherwise a path that leads from the topmost ancestor back to the
   * target, one step per level.
   */
  lemma {:induction false} PathReaches<M>(nodes: seq<NodeObject<M>>, i: nat)
    requires Shaped(nodes) && Linked(nodes) && i < |nodes|
    ensures |PathTo(nodes, i)| == Depth(nodes, i)
    ensures PathTo(nodes, i) == [] <==> !nodes[i].parent.Of?
    ensures Follow(nodes, Top(nodes, i), PathTo(nodes, i)) == Some(i)
    decreases i
  {
    if nodes[i].parent.Of? {
      var p := nodes[i].parent.index;
      PathReaches(nodes, p);
      var path := PathTo(nodes, i);
      assert path[..|path| - 1] == PathTo(nodes, p);
      assert i in nodes[p].children;
    }
  }

  /** `getNodePath(target)`. */
  method GetNodePath<M>(scene: Scene<M>, target: nat) returns (path: seq<int>)
    requires Shaped(scene.nodes) && target < |scene.nodes|
    ensures path == PathTo(scene.nodes, target)
  {
    var nodes := scene.nodes;
    var curr: nat := target;
    path := [];
    while nodes[curr].parent.Of?
      invariant curr <= target
      invariant PathTo(nodes, target) == PathTo(nodes, curr) + path
      decreases curr
    {
      var parent := nodes[curr].parent.index;
      var index := IndexOf(nodes[parent].children, curr);
      path := [index] + path;
      curr := parent;
    }
  }

  /**
   * The scale loop of `getTransform`, walking `path` from `from`: the node
   * reached and the component-wise product of the scales of the nodes
   * entered (not of `from` itself). Reading `pos` of a missing child or of a
   * half-built node throws.
   */
  function Walk<M>(nodes: seq<NodeObject<M>>, from: nat, path: seq<int>): (r: Result<(nat, Vec3)>)
    requires Shaped(nodes) && from < |nodes|
    ensures r.Ok? ==> r.value.0 < |nodes|
    decreases |path|
  {
    if path == [] then Ok((from, UnitScale))
    else
      match Walk(nodes, from, path[..|path| - 1])
      case Err(e) => Err(e)
      case Ok((curr, scale)) =>
        var k := path[|path| - 1];
        if 0 <= k < |nodes[curr].children| then
          var node := nodes[nodes[curr].children[k]];
          if node.pos.Some? && node.scale.Some? then Ok((nodes[curr].children[k], Mul(scale, node.scale.value)))
          else Err(TypeError)
        else Err(TypeError)
  }

  /** Once the walk has thrown, walking further throws too. */
  lemma {:induction false} WalkErrStays<M>(nodes: seq<NodeObject<M>>, from: nat, path: seq<int>, j: nat)
    requires Shaped(nodes) && from < |nodes| && j <= |path|
    requires Walk(nodes, from, path[..j]).Err?
    ensures Walk(nodes, from, path).Err?
    decreases |path| - j
  {
    if j < |path| {
      assert path[..j + 1][..j] == path[..j];
      WalkErrStays(nodes, from, path, j + 1);
    } else {
      assert path[..j] == path;
    }
  }

  /** The scale `getTransform` leaves in its matrix for `target`, walking from `root`. */
  method TransformScale<M>(scene: Scene<M>, root: nat, target: nat) returns (r: Result<Vec3>)
    requires Shaped(scene.nodes) && root < |scene.nodes| && target < |scene.nodes|
    ensures r.Ok? <==> Walk(scene.nodes, root, PathTo(scene.nodes, target)).Ok?
    ensures r.Ok? ==> r.value == Walk(scene.nodes, root, PathTo(scene.nodes, target)).value.1
  {
    var nodes := scene.nodes;
    var nodePath := GetNodePath(scene, target);
    var curr := root;
    var scale := UnitScale;
    var j := 0;
    while j < |nodePath|
      invariant j <= |nodePath|
      invariant Walk(nodes, root, nodePath[..j]) == Ok((curr, scale))
    {
      assert nodePath[..j + 1][..j] == nodePath[..j];
      var index := nodePath[j];
      if !(0 <= index < |nodes[curr].children|) {
        WalkErrStays(nodes, root, nodePath, j + 1);
        return Err(TypeError);
      }
      var node := nodes[nodes[curr].children[index]];
      if node.pos.None? || node.scale.None? {
        WalkErrStays(nodes, root, nodePath, j + 1);
        return Err(TypeError);
      }
      scale := Mul(scale, node.scale.value);
      curr := nodes[curr].children[index];
      j := j + 1;
    }
    assert nodePath[..j] == nodePath;
    r := Ok(scale);
  }

  /** Every node strictly below the top of `i`'s chain, `i` included, has its transform. */
  predicate ChainComplete<M>(nodes: seq<NodeObject<M>>, i: nat)
    requires Shaped(nodes) && i < |nodes|
    decreases i
  {
    nodes[i].parent.Of? ==>
      nodes[i].pos.Some? && nodes[i].scale.Some? && ChainComplete(nodes, nodes[i].parent.index)
  }

  /** The product of the scales of `i` and its ancestors below the top; the top's own scale is not a factor. */
  function AncestorScale<M>(nodes: seq<NodeObject<M>>, i: nat): Vec3
    requires Shaped(nodes) && i < |nodes| && ChainComplete(nodes, i)
    decreases i
  {
    if nodes[i].parent.Of? then Mul(AncestorScale(nodes, nodes[i].parent.index), nodes[i].scale.value)
    else UnitScale
  }

  /**
   * `getTransform` from the top of `i`'s chain reaches `i` with the product
   * of the scales below the top, and throws exactly when a node on the way
   * is half built.
   */
  lemma {:induction false} TransformScaleOfPath<M>(nodes: seq<NodeObject<M>>, i: nat)
    requires Shaped(nodes) && Linked(nodes) && i < |nodes|
    ensures Walk(nodes, Top(nodes, i), PathTo(nodes, i)).Ok? <==> ChainComplete(nodes, i)
    ensures ChainComplete(nodes, i) ==> Walk(nodes, Top(nodes, i), PathTo(nodes, i)) == Ok((i, AncestorScale(nodes, i)))
    decreases i
  {
    if nodes[i].parent.Of? {
      var p := nodes[i].parent.index;
      TransformScaleOfPath(nodes, p);
      var path := PathTo(nodes, i);
      assert path[..|path| - 1] == PathTo(nodes, p);
      assert i in nodes[p].children;
    }
  }

  /** The top node's own scale never enters `getTransform`'s result. */
  lemma {:induction false} TopScaleIgnored<M>(nodes: seq<NodeObject<M>>, i: nat, s: Vec3)
    requires Shaped(nodes) && i < |nodes| && ChainComplete(nodes, i)
    ensures var t := Top(nodes, i);
            var changed := nodes[t := nodes[t].(scale := Some(s))];
            Shaped(changed) && ChainComplete(changed, i) &&
            AncestorScale(changed, i) == AncestorScale(nodes, i)
    decreases i
  {
    var t := Top(nodes, i);
    var changed := nodes[t := nodes[t].(scale := Some(s))];
    assert forall j :: 0 <= j < |nodes| ==> changed[j].children == nodes[j].children && changed[j].parent == nodes[j].parent;
    if nodes[i].parent.Of? {
      TopScaleIgnored(nodes, nodes[i].parent.index, s);
    }
  }
}
