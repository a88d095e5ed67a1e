/**
 * The scene graphs that `initSceneGraph` builds at page load: the project A
 * arm of five cylinders with its five houses, and the project B arm of
 * seven cylinders. Meshes are handles of type `M`: two nodes share one mesh
 * object exactly when they hold the same handle. The meshes themselves are
 * built by the `Builders` and `Solids` modules.
 */
module Scenes {
  import opened Common
  import opened SceneTree
  import opened Registry

  /** The names of a node's children, in order. */
  function ChildNames<M>(nodes: seq<NodeObject<M>>, i: nat): seq<Option<string>>
    requires i < |nodes|
  {
    seq(|nodes[i].children|, k requires 0 <= k < |nodes[i].children| =>
      if nodes[i].children[k] < |nodes| then nodes[nodes[i].children[k]].name else None)
  }

  /** The names of the children of the node registered as `name`. */
  function KidsOf<M>(nodes: seq<NodeObject<M>>, registry: map<string, nat>, name: string): seq<Option<string>>
    requires name in registry && registry[name] < |nodes|
  {
    ChildNames(nodes, registry[name])
  }

  /** The mesh handles the nodes of the arena hold, in arena order. */
  function ArenaMeshes<M>(nodes: seq<NodeObject<M>>): seq<M>
  {
    if nodes == [] then []
    else (if nodes[0].mesh.Some? then [nodes[0].mesh.value] else []) + ArenaMeshes(nodes[1..])
  }

  lemma {:induction false} ArenaMeshesAppend<M>(a: seq<NodeObject<M>>, b: seq<NodeObject<M>>)
    ensures ArenaMeshes(a + b) == ArenaMeshes(a) + ArenaMeshes(b)
  {
    if a == [] {
      assert a + b == b;
    } else {
      assert (a + b)[1..] == a[1..] + b;
      ArenaMeshesAppend(a[1..], b);
    }
  }

  /** Appending a cylinder's four nodes, whose meshes are two caps and a side, to the arena. */
  lemma CylinderCounts<M>(pre: seq<NodeObject<M>>, c: seq<NodeObject<M>>, circle: M, cyl: M, m: M)
    requires ArenaMeshes(c) == [circle, circle, cyl] && circle != cyl
    ensures Count(ArenaMeshes(pre + c), m) ==
            Count(ArenaMeshes(pre), m) + (if m == circle then 2 else 0) + (if m == cyl then 1 else 0)
  {
    var t := [circle, circle, cyl];
    assert t[1..] == [circle, cyl] && t[1..][1..] == [cyl] && [cyl][1..] == [];
    assert Count([cyl], m) == if m == cyl then 1 else 0;
    assert Count(t[1..], m) == (if m == circle then 1 else 0) + (if m == cyl then 1 else 0);
    ArenaMeshesAppend(pre, c);
    CountAppend(ArenaMeshes(pre), t, m);
  }

  /** The four names `makeCyllinder` registers for the cylinder `name`. */
  predicate CylinderFresh(registry: map<string, nat>, name: string)
  {
    name !in registry && name + "_Top" !in registry && name + "_Bot" !in registry && name + "_Middle" !in registry
  }

  /** The registry after the four nodes of the cylinder `name`, from `base` on, are registered. */
  function RegisterCylinder(registry: map<string, nat>, name: string, base: nat): map<string, nat>
  {
    registry[name := base][name + "_Top" := base + 1][name + "_Bot" := base + 2][name + "_Middle" := base + 3]
  }

  /** The four names of one cylinder differ from each other. */
  lemma SuffixesDistinct(name: string)
    ensures name != name + "_Top" && name != name + "_Bot" && name != name + "_Middle"
    ensures name + "_Top" != name + "_Bot" && name + "_Top" != name + "_Middle" && name + "_Bot" != name + "_Middle"
  {
    assert (name + "_Top")[|name| + 1] == 'T';
    assert (name + "_Bot")[|name| + 1] == 'B';
  }

  /** Appending four elements, then replacing the first of them. */
  lemma FourAppended<T>(s: seq<T>, a: T, q: seq<T>)
    requires |q| == 4
    ensures (s + [a] + [q[1]] + [q[2]] + [q[3]])[|s| := q[0]] == s + q
  {
  }

  // Project A

  /** A project A cap or side node: no rotation, its own mesh, no children yet. */
  function PartA<M>(name: string, pos: Vec3, scale: Vec3, mesh: M): NodeObject<M>
  {
    NodeObject(Some(name), Undefined, Some(pos), Some(Euler(Vec3(0.0, 0.0, 0.0))), Some(scale), Some(mesh), Some(true), [])
  }

  /**
   * The four nodes project A's `makeCyllinder` creates from index `base`:
   * the cylinder (no mesh, children top, bottom and side, then `next`), a
   * top cap at its origin, a half-size bottom cap at `height`, and the side
   * stretched to `height`.
   */
  function CylinderA<M>(name: string, height: real, pos: Vec3, rot: Vec3, scale: Vec3, circle: M, cyl: M,
                        base: nat, next: seq<nat>): seq<NodeObject<M>>
  {
    [NodeObject(Some(name), Undefined, Some(pos), Some(Euler(rot)), Some(scale), None, Some(true),
                [base + 1, base + 2, base + 3] + next),
     PartA(name + "_Top", Vec3(0.0, 0.0, 0.0), Vec3(1.0, 1.0, 1.0), circle),
     PartA(name + "_Bot", Vec3(0.0, 0.0, height), Vec3(0.5, 0.5, 1.0), circle),
     PartA(name + "_Middle", Vec3(0.0, 0.0, 0.0), Vec3(1.0, 1.0, height), cyl)]
  }

  /**
   * Project A's `makeCyllinder`: four constructor calls, then `children` is
   * set to the caps and the side. It completes exactly when none of the four
   * names is registered; a throw leaves the nodes built so far in the arena.
   */
  method MakeCylinderA<M>(scene: Scene<M>, height: real, pos: Vec3, rot: Vec3, scale: Vec3, name: string,
                          circle: M, cyl: M) returns (node: nat, thrown: Option<string>)
    modifies scene
    ensures node == old(|scene.nodes|)
    ensures thrown.None? <==> CylinderFresh(old(scene.registry), name)
    ensures thrown.None? ==> scene.nodes == old(scene.nodes) + CylinderA(name, height, pos, rot, scale, circle, cyl, node, [])
    ensures thrown.None? ==> scene.registry == RegisterCylinder(old(scene.registry), name, node)
    ensures node < |scene.nodes| && forall i :: 0 <= i < node ==> scene.nodes[i] == old(scene.nodes)[i]
  {
    SuffixesDistinct(name);
    ghost var s0 := scene.nodes;
    node, thrown := scene.NewNodeA(NodeArgs(Some(name), Some(pos), Some(Euler(rot)), Some(scale), None), true);
    if thrown.Some? {
      return;
    }
    var top, bot, mid: nat;
    top, thrown := scene.NewNodeA(NodeArgs(Some(name + "_Top"), Some(Vec3(0.0, 0.0, 0.0)), Some(Euler(Vec3(0.0, 0.0, 0.0))),
                                           Some(Vec3(1.0, 1.0, 1.0)), Some(circle)), true);
    if thrown.Some? {
      return;
    }
    bot, thrown := scene.NewNodeA(NodeArgs(Some(name + "_Bot"), Some(Vec3(0.0, 0.0, height)), Some(Euler(Vec3(0.0, 0.0, 0.0))),
                                           Some(Vec3(0.5, 0.5, 1.0)), Some(circle)), true);
    if thrown.Some? {
      return;
    }
    mid, thrown := scene.NewNodeA(NodeArgs(Some(name + "_Middle"), Some(Vec3(0.0, 0.0, 0.0)), Some(Euler(Vec3(0.0, 0.0, 0.0))),
                                           Some(Vec3(1.0, 1.0, height)), Some(cyl)), true);
    if thrown.Some? {
      return;
    }
    ghost var c := CylinderA(name, height, pos, rot, scale, circle, cyl, node, []);
    assert scene.nodes == s0 + [c[0].(children := [])] + [c[1]] + [c[2]] + [c[3]];
    scene.SetChildren(node, [top, bot, mid]);
    AppendNil([top, bot, mid]);
    FourAppended(s0, c[0].(children := []), c);
  }

  /** A project A house node, with no children yet. */
  function HouseA<M>(name: string, pos: Vec3, rot: Vec3, scale: Vec3, house: M): NodeObject<M>
  {
    NodeObject(Some(name), Undefined, Some(pos), Some(Euler(rot)), Some(scale), Some(house), Some(true), [])
  }

  /** The cylinders `l1` ... `l5` of project A's arm; `next` is what is pushed after the caps and the side. */
  function LinkA<M>(k: nat, circle: M, cyl: M, next: seq<nat>): seq<NodeObject<M>>
    requires 1 <= k <= 5
  {
    match k
    case 1 => CylinderA("l1", 4.0, Vec3(0.0, -1.0, 0.0), Vec3(90.0, 180.0, 0.0), Vec3(0.1, 0.1, 0.1), circle, cyl, 1, next)
    case 2 => CylinderA("l2", 2.0, Vec3(0.0, 0.0, 4.0), Vec3(0.0, 0.0, 0.0), Vec3(0.5, 0.5, 1.0), circle, cyl, 5, next)
    case 3 => CylinderA("l3", 1.0, Vec3(0.0, 0.0, 2.0), Vec3(0.0, 0.0, 0.0), Vec3(0.5, 0.5, 1.0), circle, cyl, 9, next)
    case 4 => CylinderA("l4", 0.5, Vec3(0.0, 0.0, 1.0), Vec3(0.0, 0.0, 0.0), Vec3(0.5, 0.5, 1.0), circle, cyl, 13, next)
    case 5 => CylinderA("l5", 0.25, Vec3(0.0, 0.0, 0.5), Vec3(0.0, 0.0, 0.0), Vec3(0.5, 0.5, 1.0), circle, cyl, 17, next)
  }

  /** The houses of project A: `house` and the four pushed into it. */
  function HousesA<M>(house: M): seq<NodeObject<M>>
  {
    [HouseA("house", Vec3(0.5, 0.5, 0.0), Vec3(0.0, 0.0, 0.0), Vec3(0.15, 0.15, 0.15), house).(children := [22, 23, 24, 25]),
     HouseA("house2", Vec3(0.0, 1.5, 0.0), Vec3(180.0, 0.0, 0.0), Vec3(1.0, 1.0, 1.0), house),
     HouseA("house3", Vec3(0.0, 0.0, 1.25), Vec3(270.0, 0.0, 0.0), Vec3(1.0, 1.0, 1.0), house),
     HouseA("house4", Vec3(0.0, 0.0, -1.25), Vec3(90.0, 0.0, 0.0), Vec3(1.0, 1.0, 1.0), house),
     HouseA("house5", Vec3(0.0, -1.25, 0.0), Vec3(0.0, 0.0, 0.0), Vec3(1.0, 1.0, 1.0), house)]
  }

  /** The root as project A's `new SceneGraph("root")` makes it, with `children` set to `kids`. */
  function RootA<M>(kids: seq<nat>): NodeObject<M>
  {
    NodeObject(Some("root"), Undefined, Some(Origin), Some(ZeroEuler), Some(UnitScale), None, Some(true), kids)
  }

  /** The arm: the five cylinders from index 1, each but the last holding the next. */
  function ArmA<M>(circle: M, cyl: M): seq<NodeObject<M>>
  {
    LinkA(1, circle, cyl, [5]) + LinkA(2, circle, cyl, [9]) + LinkA(3, circle, cyl, [13]) +
    LinkA(4, circle, cyl, [17]) + LinkA(5, circle, cyl, [])
  }

  /** The arena project A's `initSceneGraph` leaves: the root, the arm from index 1, the houses from index 21. */
  function SceneA<M>(circle: M, cyl: M, house: M): seq<NodeObject<M>>
  {
    [RootA([1, 21])] + ArmA(circle, cyl) + HousesA(house)
  }

  /** The name of the cylinder `k` of project A's arm. */
  function ArmName(k: nat): string
    requires 1 <= k <= 5
  {
    match k
    case 1 => "l1"
    case 2 => "l2"
    case 3 => "l3"
    case 4 => "l4"
    case 5 => "l5"
  }

  /** `Animation.nodes` once the root and the first `k` cylinders of project A's arm are built. */
  function ArmRegistryUpTo(k: nat): map<string, nat>
    requires k <= 5
  {
    match k
    case 0 => map["root" := 0]
    case 1 => map["root" := 0, "l1" := 1, "l1_Top" := 2, "l1_Bot" := 3, "l1_Middle" := 4]
    case 2 => map["root" := 0, "l1" := 1, "l1_Top" := 2, "l1_Bot" := 3, "l1_Middle" := 4,
               "l2" := 5, "l2_Top" := 6, "l2_Bot" := 7, "l2_Middle" := 8]
    case 3 => map["root" := 0, "l1" := 1, "l1_Top" := 2, "l1_Bot" := 3, "l1_Middle" := 4,
               "l2" := 5, "l2_Top" := 6, "l2_Bot" := 7, "l2_Middle" := 8, "l3" := 9,
               "l3_Top" := 10, "l3_Bot" := 11, "l3_Middle" := 12]
    case 4 => map["root" := 0, "l1" := 1, "l1_Top" := 2, "l1_Bot" := 3, "l1_Middle" := 4,
               "l2" := 5, "l2_Top" := 6, "l2_Bot" := 7, "l2_Middle" := 8, "l3" := 9,
               "l3_Top" := 10, "l3_Bot" := 11, "l3_Middle" := 12, "l4" := 13, "l4_Top" := 14,
               "l4_Bot" := 15, "l4_Middle" := 16]
    case 5 => map["root" := 0, "l1" := 1, "l1_Top" := 2, "l1_Bot" := 3, "l1_Middle" := 4,
               "l2" := 5, "l2_Top" := 6, "l2_Bot" := 7, "l2_Middle" := 8, "l3" := 9,
               "l3_Top" := 10, "l3_Bot" := 11, "l3_Middle" := 12, "l4" := 13, "l4_Top" := 14,
               "l4_Bot" := 15, "l4_Middle" := 16, "l5" := 17, "l5_Top" := 18, "l5_Bot" := 19,
               "l5_Middle" := 20]
  }

  /** `Animation.nodes` once the root and the arm are built. */
  function ArmRegistryA(): map<string, nat>
  {
    ArmRegistryUpTo(5)
  }

  /**
   * Cylinder `k` of the arm finds its four names free and registers them.
   * Each index has its own lemma below, so that the string and map facts of
   * one cylinder are proved without those of the other four in scope.
   */
  lemma ArmFresh(k: nat)
    requires 1 <= k <= 5
    ensures CylinderFresh(ArmRegistryUpTo(k - 1), ArmName(k))
    ensures RegisterCylinder(ArmRegistryUpTo(k - 1), ArmName(k), 4 * k - 3) == ArmRegistryUpTo(k)
  {
    if k == 1 {
      ArmFresh1();
    } else if k == 2 {
      ArmFresh2();
    } else if k == 3 {
      ArmFresh3();
    } else if k == 4 {
      ArmFresh4();
    } else {
      ArmFresh5();
    }
  }

  lemma ArmFresh1()
    ensures CylinderFresh(ArmRegistryUpTo(0), "l1")
    ensures RegisterCylinder(ArmRegistryUpTo(0), "l1", 1) == ArmRegistryUpTo(1)
  {
    assert "l1" + "_Top" == "l1_Top" && "l1" + "_Bot" == "l1_Bot" && "l1" + "_Middle" == "l1_Middle";
  }

  lemma ArmFresh2()
    ensures CylinderFresh(ArmRegistryUpTo(1), "l2")
    ensures RegisterCylinder(ArmRegistryUpTo(1), "l2", 5) == ArmRegistryUpTo(2)
  {
    assert "l2" + "_Top" == "l2_Top" && "l2" + "_Bot" == "l2_Bot" && "l2" + "_Middle" == "l2_Middle";
  }

  lemma ArmFresh3()
    ensures CylinderFresh(ArmRegistryUpTo(2), "l3")
    ensures RegisterCylinder(ArmRegistryUpTo(2), "l3", 9) == ArmRegistryUpTo(3)
  {
    assert "l3" + "_Top" == "l3_Top" && "l3" + "_Bot" == "l3_Bot" && "l3" + "_Middle" == "l3_Middle";
  }

  lemma ArmFresh4()
    ensures CylinderFresh(ArmRegistryUpTo(3), "l4")
    ensures RegisterCylinder(ArmRegistryUpTo(3), "l4", 13) == ArmRegistryUpTo(4)
  {
    assert "l4" + "_Top" == "l4_Top" && "l4" + "_Bot" == "l4_Bot" && "l4" + "_Middle" == "l4_Middle";
  }

  lemma ArmFresh5()
    ensures CylinderFresh(ArmRegistryUpTo(4), "l5")
    ensures RegisterCylinder(ArmRegistryUpTo(4), "l5", 17) == ArmRegistryUpTo(5)
  {
    assert "l5" + "_Top" == "l5_Top" && "l5" + "_Bot" == "l5_Bot" && "l5" + "_Middle" == "l5_Middle";
  }

  /** `Animation.nodes` after project A's `initSceneGraph`. */
  function RegistryA(): map<string, nat>
  {
    ArmRegistryA()["house" := 21]["house2" := 22]["house3" := 23]["house4" := 24]["house5" := 25]
  }

  lemma AppendFive<T>(r: seq<T>, a: seq<T>, b: seq<T>, c: seq<T>, d: seq<T>, e: seq<T>)
    ensures r + (a + b + c + d + e) == r + a + b + c + d + e
  {
  }

  /** Replacing the element where `q` starts. */
  lemma ReplaceFirst<T>(p: seq<T>, q: seq<T>, r: seq<T>, x: T)
    requires |q| > 0
    ensures (p + q + r)[|p| := x] == p + ([x] + q[1..]) + r
  {
  }

  /** Pushing `n` into the cylinder `k` of the arm while the later cylinders follow it. */
  lemma PushLink<M>(p: seq<NodeObject<M>>, k: nat, r: seq<NodeObject<M>>, circle: M, cyl: M, n: nat)
    requires 1 <= k <= 5
    ensures var c := LinkA(k, circle, cyl, []);
            (p + c + r)[|p| := c[0].(children := c[0].children + [n])] == p + LinkA(k, circle, cyl, [n]) + r
  {
    var c := LinkA(k, circle, cyl, []);
    var x := c[0].(children := c[0].children + [n]);
    ReplaceFirst(p, c, r, x);
    AppendNil(c[0].children[..3]);
    assert [x] + c[1..] == LinkA(k, circle, cyl, [n]);
  }

  /**
   * Project A's `initSceneGraph` on a fresh page: the root, the arm of five
   * cylinders each pushed into the one before, the houses pushed into
   * `house`, and finally the arm and `house` pushed into the root. No
   * constructor throws, because every name is new.
   */
  method InitSceneGraphA<M>(scene: Scene<M>, circle: M, cyl: M, house: M) returns (root: nat)
    requires scene.nodes == [] && scene.registry == map[]
    modifies scene
    ensures root == 0
    ensures scene.nodes == SceneA(circle, cyl, house) && scene.registry == RegistryA()
  {
    var thrown: Option<string>;
    root, thrown := scene.NewNodeA(NodeArgs(Some("root"), None, None, None, None), true);
    assert scene.nodes == [RootA([])];
    var l1 := BuildArmA(scene, circle, cyl);
    assert |ArmA<M>(circle, cyl)| == 20;
    var h1 := BuildHousesA(scene, house);
    assert scene.nodes == [RootA([])] + ArmA(circle, cyl) + HousesA(house);
    ghost var before := scene.nodes;
    scene.PushChild(root, l1);
    ghost var mid := scene.nodes;
    scene.PushChild(root, h1);
    RootTwice(ArmA(circle, cyl), HousesA(house), before, mid, scene.nodes);
  }

  /** Pushing 1 and then 21 onto the root's children leaves the rest of the arena alone. */
  lemma RootTwice<M>(a: seq<NodeObject<M>>, b: seq<NodeObject<M>>, before: seq<NodeObject<M>>, mid: seq<NodeObject<M>>, after: seq<NodeObject<M>>)
    requires before == [RootA([])] + a + b
    requires mid == before[0 := before[0].(children := before[0].children + [1])]
    requires after == mid[0 := mid[0].(children := mid[0].children + [21])]
    ensures after == [RootA([1, 21])] + a + b
  {
    assert RootA<M>([]).children + [1] == [1];
    ReplaceHead(RootA([]), RootA([1]), a, b);
    assert RootA<M>([1]).children + [21] == [1, 21];
    ReplaceHead(RootA([1]), RootA([1, 21]), a, b);
  }

  /** Replacing the first element of a sequence made of three parts. */
  lemma ReplaceHead<T>(x: T, y: T, a: seq<T>, b: seq<T>)
    ensures ([x] + a + b)[0 := y] == [y] + a + b
  {
  }

  /** The arm of project A's `initSceneGraph`: the five cylinders, each pushed into the one before. */
  method BuildArmA<M>(scene: Scene<M>, circle: M, cyl: M) returns (l1: nat)
    requires |scene.nodes| == 1 && scene.registry == map["root" := 0]
    modifies scene
    ensures l1 == 1
    ensures scene.nodes == old(scene.nodes) + ArmA(circle, cyl) && scene.registry == ArmRegistryA()
  {
    ghost var r := scene.nodes;
    l1 := AddCylinderA(scene, 1, 4.0, Vec3(0.0, -1.0, 0.0), Vec3(90.0, 180.0, 0.0), Vec3(0.1, 0.1, 0.1), "l1", circle, cyl);
    assert scene.nodes == r + LinkA(1, circle, cyl, []);
    var l2 := AddCylinderA(scene, 2, 2.0, Vec3(0.0, 0.0, 4.0), Vec3(0.0, 0.0, 0.0), Vec3(0.5, 0.5, 1.0), "l2", circle, cyl);
    assert scene.nodes == r + LinkA(1, circle, cyl, []) + LinkA(2, circle, cyl, []);
    scene.PushChild(l1, l2);
    PushLink(r, 1, LinkA(2, circle, cyl, []), circle, cyl, 5);
    ghost var p := r + LinkA(1, circle, cyl, [5]);
    var l3 := AddCylinderA(scene, 3, 1.0, Vec3(0.0, 0.0, 2.0), Vec3(0.0, 0.0, 0.0), Vec3(0.5, 0.5, 1.0), "l3", circle, cyl);
    assert scene.nodes == p + LinkA(2, circle, cyl, []) + LinkA(3, circle, cyl, []);
    scene.PushChild(l2, l3);
    PushLink(p, 2, LinkA(3, circle, cyl, []), circle, cyl, 9);
    p := p + LinkA(2, circle, cyl, [9]);
    var l4 := AddCylinderA(scene, 4, 0.5, Vec3(0.0, 0.0, 1.0), Vec3(0.0, 0.0, 0.0), Vec3(0.5, 0.5, 1.0), "l4", circle, cyl);
    assert scene.nodes == p + LinkA(3, circle, cyl, []) + LinkA(4, circle, cyl, []);
    scene.PushChild(l3, l4);
    PushLink(p, 3, LinkA(4, circle, cyl, []), circle, cyl, 13);
    p := p + LinkA(3, circle, cyl, [13]);
    var l5 := AddCylinderA(scene, 5, 0.25, Vec3(0.0, 0.0, 0.5), Vec3(0.0, 0.0, 0.0), Vec3(0.5, 0.5, 1.0), "l5", circle, cyl);
    assert scene.nodes == p + LinkA(4, circle, cyl, []) + LinkA(5, circle, cyl, []);
    scene.PushChild(l4, l5);
    PushLink(p, 4, LinkA(5, circle, cyl, []), circle, cyl, 17);
    AppendFive(r, LinkA(1, circle, cyl, [5]), LinkA(2, circle, cyl, [9]), LinkA(3, circle, cyl, [13]),
               LinkA(4, circle, cyl, [17]), LinkA(5, circle, cyl, []));
  }

  /**
   * `makeCyllinder` for the cylinder `k` of project A's arm, once the root
   * and the cylinders before it are built: its names are free, so it does
   * not throw.
   */
  method AddCylinderA<M>(scene: Scene<M>, k: nat, height: real, pos: Vec3, rot: Vec3, scale: Vec3, name: string,
                         circle: M, cyl: M) returns (node: nat)
    requires 1 <= k <= 5 && name == ArmName(k)
    requires |scene.nodes| == 4 * k - 3 && scene.registry == ArmRegistryUpTo(k - 1)
    modifies scene
    ensures node == 4 * k - 3
    ensures scene.nodes == old(scene.nodes) + CylinderA(name, height, pos, rot, scale, circle, cyl, node, [])
    ensures scene.registry == ArmRegistryUpTo(k)
  {
    ArmFresh(k);
    var thrown: Option<string>;
    node, thrown := MakeCylinderA(scene, height, pos, rot, scale, name, circle, cyl);
  }

  /** The houses of project A's `initSceneGraph`: `house`, and the four houses pushed into it. */
  method BuildHousesA<M>(scene: Scene<M>, house: M) returns (h1: nat)
    requires |scene.nodes| == 21 && scene.registry == ArmRegistryA()
    modifies scene
    ensures h1 == 21
    ensures scene.nodes == old(scene.nodes) + HousesA(house) && scene.registry == RegistryA()
  {
    HousesFresh();
    ghost var p := scene.nodes;
    var thrown: Option<string>;
    h1, thrown := scene.NewNodeA(NodeArgs(Some("house"), Some(Vec3(0.5, 0.5, 0.0)), Some(Euler(Vec3(0.0, 0.0, 0.0))),
                                          Some(Vec3(0.15, 0.15, 0.15)), Some(house)), true);
    ghost var first := HouseA("house", Vec3(0.5, 0.5, 0.0), Vec3(0.0, 0.0, 0.0), Vec3(0.15, 0.15, 0.15), house);
    AppendNil(p + [first]);
    assert scene.nodes == p + [first.(children := [])] + [];
    var h2 := AddHouseA(scene, h1, p, first, [], [], "house2", Vec3(0.0, 1.5, 0.0), Vec3(180.0, 0.0, 0.0), house);
    var h3 := AddHouseA(scene, h1, p, first, [] + [h2], [] + [HouseA("house2", Vec3(0.0, 1.5, 0.0), Vec3(180.0, 0.0, 0.0), Vec3(1.0, 1.0, 1.0), house)],
                        "house3", Vec3(0.0, 0.0, 1.25), Vec3(270.0, 0.0, 0.0), house);
    ghost var built := [] + [HouseA("house2", Vec3(0.0, 1.5, 0.0), Vec3(180.0, 0.0, 0.0), Vec3(1.0, 1.0, 1.0), house)]
      + [HouseA("house3", Vec3(0.0, 0.0, 1.25), Vec3(270.0, 0.0, 0.0), Vec3(1.0, 1.0, 1.0), house)];
    var h4 := AddHouseA(scene, h1, p, first, [] + [h2] + [h3], built, "house4", Vec3(0.0, 0.0, -1.25), Vec3(90.0, 0.0, 0.0), house);
    built := built + [HouseA("house4", Vec3(0.0, 0.0, -1.25), Vec3(90.0, 0.0, 0.0), Vec3(1.0, 1.0, 1.0), house)];
    var h5 := AddHouseA(scene, h1, p, first, [] + [h2] + [h3] + [h4], built, "house5", Vec3(0.0, -1.25, 0.0), Vec3(0.0, 0.0, 0.0), house);
    built := built + [HouseA("house5", Vec3(0.0, -1.25, 0.0), Vec3(0.0, 0.0, 0.0), Vec3(1.0, 1.0, 1.0), house)];
    assert [] + [h2] + [h3] + [h4] + [h5] == [22, 23, 24, 25];
    assert [first.(children := [] + [h2] + [h3] + [h4] + [h5])] + built == HousesA(house);
    AppendAssoc(p, [first.(children := [] + [h2] + [h3] + [h4] + [h5])], built);
  }

  /**
   * One house of project A's scene: `new SceneGraphNode(name, pos, rot, unit scale,
   * houseMesh)` followed by `houseNode.children.push`, on an arena that
   * ends with `house` (holding `kids`) and the houses `built` after it.
   */
  method AddHouseA<M>(scene: Scene<M>, h1: nat, ghost p: seq<NodeObject<M>>, ghost first: NodeObject<M>,
                      ghost kids: seq<nat>, ghost built: seq<NodeObject<M>>, name: string, pos: Vec3, rot: Vec3, house: M)
    returns (h: nat)
    requires h1 == |p| && scene.nodes == p + [first.(children := kids)] + built && name !in scene.registry
    modifies scene
    ensures h == |p| + 1 + |built| && scene.registry == old(scene.registry)[name := h]
    ensures scene.nodes == p + [first.(children := kids + [h])] + (built + [HouseA(name, pos, rot, Vec3(1.0, 1.0, 1.0), house)])
  {
    var thrown: Option<string>;
    h, thrown := scene.NewNodeA(NodeArgs(Some(name), Some(pos), Some(Euler(rot)), Some(Vec3(1.0, 1.0, 1.0)), Some(house)), true);
    ghost var next := HouseA(name, pos, rot, Vec3(1.0, 1.0, 1.0), house);
    AppendAssoc(p + [first.(children := kids)], built, [next]);
    scene.PushChild(h1, h);
    ReplaceFirst(p, [first.(children := kids)] + (built + [next]), [], first.(children := kids + [h]));
    AppendNil(p + [first.(children := kids + [h])] + (built + [next]));
    AppendAssoc(p, [first.(children := kids + [h])], built + [next]);
  }

  /** The children of a cylinder placed at `|p|`, by name: its parts, then the node after them. */
  lemma CylinderKidsA<M>(p: seq<NodeObject<M>>, name: string, height: real, pos: Vec3, rot: Vec3, scale: Vec3,
                         circle: M, cyl: M, next: seq<nat>, r: seq<NodeObject<M>>)
    requires next == [] || (next == [|p| + 4] && |r| > 0)
    ensures var nodes := p + CylinderA(name, height, pos, rot, scale, circle, cyl, |p|, next) + r;
      |p| < |nodes| &&
      ChildNames(nodes, |p|) == [Some(name + "_Top"), Some(name + "_Bot"), Some(name + "_Middle")] +
                                 (if next == [] then [] else [r[0].name])
  {
    var nodes := p + CylinderA(name, height, pos, rot, scale, circle, cyl, |p|, next) + r;
    assert nodes[|p|].children == [|p| + 1, |p| + 2, |p| + 3] + next;
  }

  /** The children of `l1` in project A's scene, by name. */
  lemma ArmKidsA1<M>(circle: M, cyl: M, house: M)
    ensures var nodes := SceneA(circle, cyl, house);
      |nodes| == 26 &&
      ChildNames(nodes, 1) == [Some("l1" + "_Top"), Some("l1" + "_Bot"), Some("l1" + "_Middle")] + [Some("l2")]
  {
    var q := HousesA(house);
    var l1, l2, l3, l4, l5 := LinkA(1, circle, cyl, [5]), LinkA(2, circle, cyl, [9]), LinkA(3, circle, cyl, [13]), LinkA(4, circle, cyl, [17]), LinkA(5, circle, cyl, []);
    var p0 := [RootA<M>([1, 21])];
    assert SceneA(circle, cyl, house) == (p0) + l1 + (l2 + l3 + l4 + l5 + q);
    CylinderKidsA(p0, "l1", 4.0, Vec3(0.0, -1.0, 0.0), Vec3(90.0, 180.0, 0.0), Vec3(0.1, 0.1, 0.1), circle, cyl, [5], l2 + l3 + l4 + l5 + q);
  }

  /** The children of `l2` in project A's scene, by name. */
  lemma ArmKidsA2<M>(circle: M, cyl: M, house: M)
    ensures var nodes := SceneA(circle, cyl, house);
      |nodes| == 26 &&
      ChildNames(nodes, 5) == [Some("l2" + "_Top"), Some("l2" + "_Bot"), Some("l2" + "_Middle")] + [Some("l3")]
  {
    var q := HousesA(house);
    var l1, l2, l3, l4, l5 := LinkA(1, circle, cyl, [5]), LinkA(2, circle, cyl, [9]), LinkA(3, circle, cyl, [13]), LinkA(4, circle, cyl, [17]), LinkA(5, circle, cyl, []);
    var p0 := [RootA<M>([1, 21])];
    assert SceneA(circle, cyl, house) == (p0 + l1) + l2 + (l3 + l4 + l5 + q);
    CylinderKidsA(p0 + l1, "l2", 2.0, Vec3(0.0, 0.0, 4.0), Vec3(0.0, 0.0, 0.0), Vec3(0.5, 0.5, 1.0), circle, cyl, [9], l3 + l4 + l5 + q);
  }

  /** The children of `l3` in project A's scene, by name. */
  lemma ArmKidsA3<M>(circle: M, cyl: M, house: M)
    ensures var nodes := SceneA(circle, cyl, house);
      |nodes| == 26 &&
      ChildNames(nodes, 9) == [Some("l3" + "_Top"), Some("l3" + "_Bot"), Some("l3" + "_Middle")] + [Some("l4")]
  {
    var q := HousesA(house);
    var l1, l2, l3, l4, l5 := LinkA(1, circle, cyl, [5]), LinkA(2, circle, cyl, [9]), LinkA(3, circle, cyl, [13]), LinkA(4, circle, cyl, [17]), LinkA(5, circle, cyl, []);
    var p0 := [RootA<M>([1, 21])];
    assert SceneA(circle, cyl, house) == (p0 + l1 + l2) + l3 + (l4 + l5 + q);
    CylinderKidsA(p0 + l1 + l2, "l3", 1.0, Vec3(0.0, 0.0, 2.0), Vec3(0.0, 0.0, 0.0), Vec3(0.5, 0.5, 1.0), circle, cyl, [13], l4 + l5 + q);
  }

  /** The children of `l4` in project A's scene, by name. */
  lemma ArmKidsA4<M>(circle: M, cyl: M, house: M)
    ensures var nodes := SceneA(circle, cyl, house);
      |nodes| == 26 &&
      ChildNames(nodes, 13) == [Some("l4" + "_Top"), Some("l4" + "_Bot"), Some("l4" + "_Middle")] + [Some("l5")]
  {
    var q := HousesA(house);
    var l1, l2, l3, l4, l5 := LinkA(1, circle, cyl, [5]), LinkA(2, circle, cyl, [9]), LinkA(3, circle, cyl, [13]), LinkA(4, circle, cyl, [17]), LinkA(5, circle, cyl, []);
    var p0 := [RootA<M>([1, 21])];
    assert SceneA(circle, cyl, house) == (p0 + l1 + l2 + l3) + l4 + (l5 + q);
    CylinderKidsA(p0 + l1 + l2 + l3, "l4", 0.5, Vec3(0.0, 0.0, 1.0), Vec3(0.0, 0.0, 0.0), Vec3(0.5, 0.5, 1.0), circle, cyl, [17], l5 + q);
  }

  /** The children of `l5` in project A's scene, by name. */
  lemma ArmKidsA5<M>(circle: M, cyl: M, house: M)
    ensures var nodes := SceneA(circle, cyl, house);
      |nodes| == 26 &&
      ChildNames(nodes, 17) == [Some("l5" + "_Top"), Some("l5" + "_Bot"), Some("l5" + "_Middle")]
  {
    var q := HousesA(house);
    var l1, l2, l3, l4, l5 := LinkA(1, circle, cyl, [5]), LinkA(2, circle, cyl, [9]), LinkA(3, circle, cyl, [13]), LinkA(4, circle, cyl, [17]), LinkA(5, circle, cyl, []);
    var p0 := [RootA<M>([1, 21])];
    assert SceneA(circle, cyl, house) == (p0 + l1 + l2 + l3 + l4) + l5 + (q);
    CylinderKidsA(p0 + l1 + l2 + l3 + l4, "l5", 0.25, Vec3(0.0, 0.0, 0.5), Vec3(0.0, 0.0, 0.0), Vec3(0.5, 0.5, 1.0), circle, cyl, [], q);
  }

  /** `l1` to `l5` are registered under their arena indices. */
  lemma ArmRegisteredA(k: nat)
    requires 1 <= k <= 5
    ensures ArmName(k) in RegistryA() && RegistryA()[ArmName(k)] == 4 * k - 3
  {
  }

  /**
   * In project A's scene each cylinder `lk` holds exactly its top cap,
   * bottom cap and side, then `l(k+1)`; `l5` holds only its three parts.
   */
  lemma ArmShapeA<M>(circle: M, cyl: M, house: M, k: nat)
    requires 1 <= k <= 5
    ensures var nodes, reg := SceneA(circle, cyl, house), RegistryA();
      ArmName(k) in reg && reg[ArmName(k)] < |nodes| &&
      KidsOf(nodes, reg, ArmName(k)) ==
        [Some(ArmName(k) + "_Top"), Some(ArmName(k) + "_Bot"), Some(ArmName(k) + "_Middle")] +
        (if k < 5 then [Some(ArmName(k + 1))] else [])
  {
    ArmRegisteredA(k);
    match k
    case 1 => ArmKidsA1(circle, cyl, house);
    case 2 => ArmKidsA2(circle, cyl, house);
    case 3 => ArmKidsA3(circle, cyl, house);
    case 4 => ArmKidsA4(circle, cyl, house);
    case 5 => ArmKidsA5(circle, cyl, house);
  }

  /** The root of project A's scene holds `l1`, then `house`. */
  lemma RootKidsA<M>(circle: M, cyl: M, house: M)
    ensures var nodes, reg := SceneA(circle, cyl, house), RegistryA();
      "root" in reg && reg["root"] < |nodes| && KidsOf(nodes, reg, "root") == [Some("l1"), Some("house")]
  {
    var nodes := SceneA(circle, cyl, house);
    assert nodes == [RootA<M>([1, 21])] + ArmA(circle, cyl) + HousesA(house);
    assert nodes[1] == LinkA(1, circle, cyl, [5])[0];
    assert nodes[21] == HousesA(house)[0];
  }

  /** `house` holds the other four houses, in order, and no house holds anything. */
  lemma HouseKidsA<M>(circle: M, cyl: M, house: M)
    ensures var nodes, reg := SceneA(circle, cyl, house), RegistryA();
      "house" in reg && reg["house"] < |nodes| &&
      KidsOf(nodes, reg, "house") == [Some("house2"), Some("house3"), Some("house4"), Some("house5")] &&
      forall j :: 22 <= j < |nodes| ==> nodes[j].children == []
  {
    var nodes := SceneA(circle, cyl, house);
    assert nodes == [RootA<M>([1, 21])] + ArmA(circle, cyl) + HousesA(house);
    assert nodes[21..] == HousesA(house);
  }

  /** The meshes of one project A cylinder: its two caps hold `circle`, its side `cyl`. */
  lemma CylinderMeshesA<M>(name: string, height: real, pos: Vec3, rot: Vec3, scale: Vec3, circle: M, cyl: M,
                           base: nat, next: seq<nat>)
    ensures ArenaMeshes(CylinderA(name, height, pos, rot, scale, circle, cyl, base, next)) == [circle, circle, cyl]
  {
    var c := CylinderA(name, height, pos, rot, scale, circle, cyl, base, next);
    assert c[1..][1..][1..][1..] == [];
    assert ArenaMeshes(c[1..][1..][1..]) == [cyl];
    assert ArenaMeshes(c[1..][1..]) == [circle, cyl];
  }

  /** Appending cylinder `k` of project A's arm adds two circles and one side to the arena's meshes. */
  lemma LinkCountsA<M>(p: seq<NodeObject<M>>, k: nat, circle: M, cyl: M, next: seq<nat>, m: M)
    requires 1 <= k <= 5 && circle != cyl
    ensures Count(ArenaMeshes(p + LinkA(k, circle, cyl, next)), m) ==
            Count(ArenaMeshes(p), m) + (if m == circle then 2 else 0) + (if m == cyl then 1 else 0)
  {
    match k {
      case 1 => CylinderMeshesA("l1", 4.0, Vec3(0.0, -1.0, 0.0), Vec3(90.0, 180.0, 0.0), Vec3(0.1, 0.1, 0.1), circle, cyl, 1, next);
      case 2 => CylinderMeshesA("l2", 2.0, Vec3(0.0, 0.0, 4.0), Vec3(0.0, 0.0, 0.0), Vec3(0.5, 0.5, 1.0), circle, cyl, 5, next);
      case 3 => CylinderMeshesA("l3", 1.0, Vec3(0.0, 0.0, 2.0), Vec3(0.0, 0.0, 0.0), Vec3(0.5, 0.5, 1.0), circle, cyl, 9, next);
      case 4 => CylinderMeshesA("l4", 0.5, Vec3(0.0, 0.0, 1.0), Vec3(0.0, 0.0, 0.0), Vec3(0.5, 0.5, 1.0), circle, cyl, 13, next);
      case 5 => CylinderMeshesA("l5", 0.25, Vec3(0.0, 0.0, 0.5), Vec3(0.0, 0.0, 0.0), Vec3(0.5, 0.5, 1.0), circle, cyl, 17, next);
    }
    CylinderCounts(p, LinkA(k, circle, cyl, next), circle, cyl, m);
  }

  /** The root and the arm hold the circle mesh 10 times, the side mesh 5 times and nothing else. */
  lemma ArmCountsA<M>(circle: M, cyl: M, m: M)
    requires circle != cyl
    ensures Count(ArenaMeshes([RootA<M>([1, 21])] + ArmA(circle, cyl)), m) ==
            (if m == circle then 10 else 0) + (if m == cyl then 5 else 0)
  {
    var p: seq<NodeObject<M>> := [RootA([1, 21])];
    assert ArenaMeshes(p) == [];
    assert Count([], m) == 0;
    LinkCountsA(p, 1, circle, cyl, [5], m);
    p := p + LinkA(1, circle, cyl, [5]);
    LinkCountsA(p, 2, circle, cyl, [9], m);
    p := p + LinkA(2, circle, cyl, [9]);
    LinkCountsA(p, 3, circle, cyl, [13], m);
    p := p + LinkA(3, circle, cyl, [13]);
    LinkCountsA(p, 4, circle, cyl, [17], m);
    p := p + LinkA(4, circle, cyl, [17]);
    LinkCountsA(p, 5, circle, cyl, [], m);
    AppendFive([RootA<M>([1, 21])], LinkA(1, circle, cyl, [5]), LinkA(2, circle, cyl, [9]), LinkA(3, circle, cyl, [13]),
               LinkA(4, circle, cyl, [17]), LinkA(5, circle, cyl, []));
  }

  /** The five house nodes all hold the one `houseMesh`. */
  lemma HouseMeshesA<M>(house: M)
    ensures ArenaMeshes(HousesA(house)) == [house, house, house, house, house]
  {
    var h := HousesA(house);
    assert h[1..][1..][1..][1..][1..] == [];
    assert ArenaMeshes(h[1..][1..][1..][1..]) == [house];
    assert ArenaMeshes(h[1..][1..][1..]) == [house, house];
    assert ArenaMeshes(h[1..][1..]) == [house, house, house];
    assert ArenaMeshes(h[1..]) == [house, house, house, house];
  }

  /**
   * Project A's scene refers to the circle mesh from 10 nodes, to the side
   * mesh from 5 and to the house mesh from 5: an unguarded `buildBuffer`
   * appends each mesh once per reference.
   */
  lemma MeshCountsA<M>(circle: M, cyl: M, house: M)
    requires circle != cyl && circle != house && cyl != house
    ensures var occ := ArenaMeshes(SceneA(circle, cyl, house));
      Count(occ, circle) == 10 && Count(occ, cyl) == 5 && Count(occ, house) == 5
  {
    var arm := [RootA<M>([1, 21])] + ArmA(circle, cyl);
    var hs := [house, house, house, house, house];
    ArmCountsA(circle, cyl, circle);
    ArmCountsA(circle, cyl, cyl);
    ArmCountsA(circle, cyl, house);
    HouseMeshesA(house);
    ArenaMeshesAppend(arm, HousesA(house));
    CountAppend(ArenaMeshes(arm), hs, circle);
    CountAppend(ArenaMeshes(arm), hs, cyl);
    CountAppend(ArenaMeshes(arm), hs, house);
    CountAbsent(hs, circle);
    CountAbsent(hs, cyl);
    assert hs[1..][1..][1..][1..][1..] == [];
    assert Count(hs[1..][1..][1..][1..], house) == 1;
    assert Count(hs[1..][1..][1..], house) == 2;
    assert Count(hs[1..][1..], house) == 3;
    assert Count(hs[1..], house) == 4;
  }

  /** None of the house names is taken by the root or the arm, and they differ from each other. */
  lemma HousesFresh()
    ensures "house" !in ArmRegistryA() && "house2" !in ArmRegistryA() && "house3" !in ArmRegistryA()
    ensures "house4" !in ArmRegistryA() && "house5" !in ArmRegistryA()
  {
  }

}
