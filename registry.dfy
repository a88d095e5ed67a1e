/**
 * Scene-graph node objects and the name registry `Animation.nodes`.
 *
 * The node objects of a page form an arena: a node's identity is its index
 * in `Scene.nodes`, and `parent`/`children` hold indices. The constructors
 * of projects B and C take a parent and push the new node into the parent's
 * `children` before anything can throw; project A's constructors take no
 * parent, and project A builds its tree by writing `children` directly.
 */
module Registry {
  import opened Common
  import opened SceneTree

  /** What a node's `parent` field holds; `undefined` and `null` are both falsy. */
  datatype Parent = Undefined | Null | Of(index: nat)

  /**
   * A node object. Fields the constructor had not reached when it threw
   * stay `undefined` (`None`). `enabled` is `None` for the second project A
   * framework, whose nodes have no such field.
   */
  datatype NodeObject<M> = NodeObject(
    name: Option<string>,
    parent: Parent,
    pos: Option<Vec3>,
    rot: Option<Rotation>,
    scale: Option<Vec3>,
    mesh: Option<M>,
    enabled: Option<bool>,
    children: seq<nat>)

  /** The arguments of `new SceneGraphNode(...)`; `None` is `undefined` or `null`. */
  datatype NodeArgs<M> = NodeArgs(
    name: Option<string>,
    pos: Option<Vec3>,
    rot: Option<Rotation>,
    scale: Option<Vec3>,
    mesh: Option<M>)

  /** The names every plain object such as `{}` inherits from `Object.prototype`. */
  const PrototypeNames: set<string> := {
    "constructor", "hasOwnProperty", "isPrototypeOf", "propertyIsEnumerable",
    "toLocaleString", "toString", "valueOf", "__proto__",
    "__defineGetter__", "__defineSetter__", "__lookupGetter__", "__lookupSetter__"}

  const NameRequired := "Name for a SceneGraphNode is required!"

  function DuplicateName(name: string): string { "Duplicate SceneGraphNode name: " + name }

  /**
   * The constructor's name checks as written: `Animation.nodes[name]` is
   * looked up on a plain object, so an inherited member such as `toString`
   * reads as a registered node.
   */
  function NameCheckAsWritten(registry: map<string, nat>, name: Option<string>): (r: Option<string>)
    ensures name.None? ==> r == Some(NameRequired)
    ensures name.Some? ==> (r.None? <==> name.value !in registry && name.value !in PrototypeNames)
  {
    if name.None? then Some(NameRequired)
    else if name.value in registry || name.value in PrototypeNames then Some(DuplicateName(name.value))
    else None
  }

  /** The constructor's name checks as intended: only a registered name is a duplicate. */
  function NameCheck(registry: map<string, nat>, name: Option<string>): (r: Option<string>)
    ensures name.None? ==> r == Some(NameRequired)
    ensures name.Some? ==> (r.None? <==> name.value !in registry)
    ensures name.Some? && r.Some? ==> r == Some(DuplicateName(name.value))
  {
    if name.None? then Some(NameRequired)
    else if name.value in registry then Some(DuplicateName(name.value))
    else None
  }

  /** The two checks differ exactly on the inherited names. */
  lemma NameChecksAgree(registry: map<string, nat>, name: string)
    ensures NameCheckAsWritten(registry, Some(name)) == NameCheck(registry, Some(name))
            <==> name in registry || name !in PrototypeNames
  {
  }

  /** A first node named `toString` is refused as a duplicate although nothing is registered. */
  lemma PrototypeNameRefused()
    ensures NameCheckAsWritten(map[], Some("toString")) == Some(DuplicateName("toString"))
    ensures NameCheck(map[], Some("toString")).None?
  {
    assert "toString" in PrototypeNames;
  }

  /** Result of running a constructor: the new arena and registry, and what was thrown. */
  datatype Construction<M> = Construction(nodes: seq<NodeObject<M>>, registry: map<string, nat>, thrown: Option<string>)

  /**
   * `new SceneGraphNode(...)`: the new node is `|nodes|`. It is pushed into
   * a truthy parent's `children` first; then the name checks run; only a
   * node that passes them is registered and gets its defaults (position at
   * the origin, `defaultRot`, unit scale) and its mesh.
   */
  function Construct<M>(nodes: seq<NodeObject<M>>, registry: map<string, nat>, a: NodeArgs<M>,
                        parent: Parent, defaultRot: Rotation, enabled: Option<bool>): (r: Construction<M>)
    requires parent.Of? ==> parent.index < |nodes|
    ensures |r.nodes| == |nodes| + 1 && r.nodes[|nodes|].parent == parent && r.nodes[|nodes|].children == []
    ensures parent.Of? ==> r.nodes[parent.index].children == nodes[parent.index].children + [|nodes|]
    ensures forall i :: 0 <= i < |nodes| && parent != Of(i) ==> r.nodes[i] == nodes[i]
    ensures forall i :: 0 <= i < |nodes| ==> r.nodes[i].name == nodes[i].name && r.nodes[i].parent == nodes[i].parent
    ensures r.nodes[|nodes|].name == a.name
    ensures r.thrown == NameCheck(registry, a.name)
    ensures r.thrown.Some? ==> r.registry == registry
    ensures r.thrown.None? ==> r.registry == registry[a.name.value := |nodes|]
  {
    var id := |nodes|;
    var half := NodeObject(None, parent, None, None, None, None, enabled, []);
    var attached := if parent.Of? then
        nodes[parent.index := nodes[parent.index].(children := nodes[parent.index].children + [id])]
      else nodes;
    if a.name.None? then Construction(attached + [half], registry, Some(NameRequired))
    else if a.name.value in registry then
      Construction(attached + [half.(name := a.name)], registry, Some(DuplicateName(a.name.value)))
    else
      var node := NodeObject(a.name, parent,
        Some(if a.pos.Some? then a.pos.value else Origin),
        Some(if a.rot.Some? then a.rot.value else defaultRot),
        Some(if a.scale.Some? then a.scale.value else UnitScale),
        a.mesh, enabled, []);
      Construction(attached + [node], registry[a.name.value := id], None)
  }

  /** Every index in the arena points inside it, and children come after their parent. */
  ghost predicate Shaped<M>(nodes: seq<NodeObject<M>>)
  {
    (forall i, k :: 0 <= i < |nodes| && 0 <= k < |nodes[i].children| ==> i < nodes[i].children[k] < |nodes|) &&
    (forall i :: 0 <= i < |nodes| && nodes[i].parent.Of? ==> nodes[i].parent.index < i)
  }

  /** A shaped arena whose registered names are the nodes' own. */
  ghost predicate WellFormed<M>(nodes: seq<NodeObject<M>>, registry: map<string, nat>)
  {
    Shaped(nodes) &&
    (forall n :: n in registry ==> registry[n] < |nodes| && nodes[registry[n]].name == Some(n))
  }

  /** `parent` and `children` agree, as the project B/C constructors keep them. */
  ghost predicate Linked<M>(nodes: seq<NodeObject<M>>)
  {
    (forall i, k :: 0 <= i < |nodes| && 0 <= k < |nodes[i].children| && nodes[i].children[k] < |nodes| ==>
       nodes[nodes[i].children[k]].parent == Of(i)) &&
    (forall i :: 0 <= i < |nodes| && nodes[i].parent.Of? && nodes[i].parent.index < |nodes| ==>
       i in nodes[nodes[i].parent.index].children)
  }

  /** A constructor call keeps the arena well formed and linked, whatever it throws. */
  lemma ConstructKeepsShape<M>(nodes: seq<NodeObject<M>>, registry: map<string, nat>, a: NodeArgs<M>,
                               parent: Parent, defaultRot: Rotation, enabled: Option<bool>)
    requires WellFormed(nodes, registry) && Linked(nodes)
    requires parent.Of? ==> parent.index < |nodes|
    ensures var r := Construct(nodes, registry, a, parent, defaultRot, enabled);
            WellFormed(r.nodes, r.registry) && Linked(r.nodes)
  {
    ConstructChildren(nodes, registry, a, parent, defaultRot, enabled);
    ConstructParents(nodes, registry, a, parent, defaultRot, enabled);
    ConstructRegistry(nodes, registry, a, parent, defaultRot, enabled);
  }

  lemma ConstructChildren<M>(nodes: seq<NodeObject<M>>, registry: map<string, nat>, a: NodeArgs<M>,
                             parent: Parent, defaultRot: Rotation, enabled: Option<bool>)
    requires WellFormed(nodes, registry) && Linked(nodes)
    requires parent.Of? ==> parent.index < |nodes|
    ensures var r := Construct(nodes, registry, a, parent, defaultRot, enabled);
            forall i, k :: 0 <= i < |r.nodes| && 0 <= k < |r.nodes[i].children| ==>
              i < r.nodes[i].children[k] < |r.nodes| && r.nodes[r.nodes[i].children[k]].parent == Of(i)
  {
    var r := Construct(nodes, registry, a, parent, defaultRot, enabled);
    var id := |nodes|;
    forall i, k | 0 <= i < |r.nodes| && 0 <= k < |r.nodes[i].children|
      ensures i < r.nodes[i].children[k] < |r.nodes|
      ensures r.nodes[r.nodes[i].children[k]].parent == Of(i)
    {
      if parent == Of(i) && k == |nodes[i].children| {
        assert r.nodes[i].children[k] == id;
      } else {
        assert r.nodes[i].children[k] == nodes[i].children[k];
      }
    }
  }

  lemma ConstructParents<M>(nodes: seq<NodeObject<M>>, registry: map<string, nat>, a: NodeArgs<M>,
                            parent: Parent, defaultRot: Rotation, enabled: Option<bool>)
    requires WellFormed(nodes, registry) && Linked(nodes)
    requires parent.Of? ==> parent.index < |nodes|
    ensures var r := Construct(nodes, registry, a, parent, defaultRot, enabled);
            forall i :: 0 <= i < |r.nodes| && r.nodes[i].parent.Of? ==>
              r.nodes[i].parent.index < i && i in r.nodes[r.nodes[i].parent.index].children
  {
    var r := Construct(nodes, registry, a, parent, defaultRot, enabled);
    forall i | 0 <= i < |r.nodes| && r.nodes[i].parent.Of?
      ensures r.nodes[i].parent.index < i
      ensures i in r.nodes[r.nodes[i].parent.index].children
    {
      if i < |nodes| {
        var p := nodes[i].parent.index;
        assert i in nodes[p].children;
        assert nodes[p].children <= r.nodes[p].children;
      }
    }
  }

  lemma ConstructRegistry<M>(nodes: seq<NodeObject<M>>, registry: map<string, nat>, a: NodeArgs<M>,
                             parent: Parent, defaultRot: Rotation, enabled: Option<bool>)
    requires WellFormed(nodes, registry)
    requires parent.Of? ==> parent.index < |nodes|
    ensures var r := Construct(nodes, registry, a, parent, defaultRot, enabled);
            forall n :: n in r.registry ==> r.registry[n] < |r.nodes| && r.nodes[r.registry[n]].name == Some(n)
  {
  }

  /** The node objects of a page and `Animation.nodes`. */
  class Scene<M> {
    /** Every node object created so far, by identity. */
    var nodes: seq<NodeObject<M>>
    /** The own properties of `Animation.nodes`: name to node. */
    var registry: map<string, nat>

    constructor ()
      ensures nodes == [] && registry == map[]
    {
      nodes := [];
      registry := map[];
    }

    /**
     * The project B/C constructor `new SceneGraphNode(name, parent, pos, rot,
     * scale, mesh)`. The new node is returned even when the constructor
     * throws, because it stays reachable from its parent's `children`.
     */
    method NewNode(a: NodeArgs<M>, parent: Parent) returns (node: nat, thrown: Option<string>)
      requires parent.Of? ==> parent.index < |nodes|
      modifies this
      ensures node == old(|nodes|)
      ensures var c := Construct(old(nodes), old(registry), a, parent, IdentityQuat, Some(true));
              nodes == c.nodes && registry == c.registry && thrown == c.thrown
    {
      node := |nodes|;
      ghost var c := Construct(nodes, registry, a, parent, IdentityQuat, Some(true));
      if parent.Of? {
        var p := nodes[parent.index];
        nodes := nodes[parent.index := p.(children := p.children + [node])];
      }
      nodes := nodes + [NodeObject(None, parent, None, None, None, None, Some(true), [])];
      if a.name.None? {
        thrown := Some(NameRequired);
        return;
      }
      nodes := nodes[node := nodes[node].(name := a.name)];
      if a.name.value in registry {
        thrown := Some(DuplicateName(a.name.value));
        return;
      }
      registry := registry[a.name.value := node];
      nodes := nodes[node := nodes[node].(
        pos := Some(if a.pos.Some? then a.pos.value else Origin),
        rot := Some(if a.rot.Some? then a.rot.value else IdentityQuat),
        scale := Some(if a.scale.Some? then a.scale.value else UnitScale),
        mesh := a.mesh)];
      thrown := None;
    }

    /**
     * The project A constructors `new SceneGraphNode(name, pos, rot, scale,
     * mesh)`: no parent, Euler-angle rotation; `hasEnabled` is false for the
     * second framework, whose nodes carry no `enabled` field.
     */
    method NewNodeA(a: NodeArgs<M>, hasEnabled: bool) returns (node: nat, thrown: Option<string>)
      modifies this
      ensures node == old(|nodes|)
      ensures var c := Construct(old(nodes), old(registry), a, Undefined, ZeroEuler, if hasEnabled then Some(true) else None);
              nodes == c.nodes && registry == c.registry && thrown == c.thrown
    {
      node := |nodes|;
      var enabled := if hasEnabled then Some(true) else None;
      if a.name.None? {
        nodes := nodes + [NodeObject(None, Undefined, None, None, None, None, enabled, [])];
        thrown := Some(NameRequired);
        return;
      }
      if a.name.value in registry {
        nodes := nodes + [NodeObject(a.name, Undefined, None, None, None, None, enabled, [])];
        thrown := Some(DuplicateName(a.name.value));
        return;
      }
      registry := registry[a.name.value := node];
      nodes := nodes + [NodeObject(a.name, Undefined,
        Some(if a.pos.Some? then a.pos.value else Origin),
        Some(if a.rot.Some? then a.rot.value else ZeroEuler),
        Some(if a.scale.Some? then a.scale.value else UnitScale),
        a.mesh, enabled, [])];
      thrown := None;
    }

    /** `node.children = cs` (project A). */
    method SetChildren(i: nat, cs: seq<nat>)
      requires i < |nodes|
      modifies this
      ensures registry == old(registry) && |nodes| == old(|nodes|)
      ensures nodes == old(nodes)[i := old(nodes)[i].(children := cs)]
    {
      nodes := nodes[i := nodes[i].(children := cs)];
    }

    /** `node.enabled = shown`, as the animation step does for the nodes behind the "shown" checkboxes. */
    method SetEnabled(i: nat, shown: bool)
      requires i < |nodes|
      modifies this
      ensures registry == old(registry)
      ensures nodes == old(nodes)[i := old(nodes)[i].(enabled := Some(shown))]
    {
      nodes := nodes[i := nodes[i].(enabled := Some(shown))];
    }

    /** `node.pos = p`. */
    method SetPos(i: nat, p: Vec3)
      requires i < |nodes|
      modifies this
      ensures registry == old(registry)
      ensures nodes == old(nodes)[i := old(nodes)[i].(pos := Some(p))]
    {
      nodes := nodes[i := nodes[i].(pos := Some(p))];
    }

    /** `node.rot = r`, or an in-place write to the node's own rotation object. */
    method SetRot(i: nat, r: Rotation)
      requires i < |nodes|
      modifies this
      ensures registry == old(registry)
      ensures nodes == old(nodes)[i := old(nodes)[i].(rot := Some(r))]
    {
      nodes := nodes[i := nodes[i].(rot := Some(r))];
    }

    /** `node.children.push(c)` (project A). */
    method PushChild(i: nat, c: nat)
      requires i < |nodes|
      modifies this
      ensures registry == old(registry) && |nodes| == old(|nodes|)
      ensures nodes == old(nodes)[i := old(nodes)[i].(children := old(nodes)[i].children + [c])]
    {
      nodes := nodes[i := nodes[i].(children := nodes[i].children + [c])];
    }
  }
}
