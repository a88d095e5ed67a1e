/**
 * The arm project B's `initSceneGraph` builds under the root `CVV`: seven
 * cylinders, each made by `makeCyllinder` as a child of the one before,
 * whose caps all share one circle mesh and whose sides share one side mesh.
 */
module ScenesB {
  import opened Common
  import opened SceneTree
  import opened Registry
  import opened Scenes

  /** `nodes[i].children.push(c)`, as a project B constructor does to its parent. */
  function Pushed<M>(nodes: seq<NodeObject<M>>, i: nat, c: nat): seq<NodeObject<M>>
    requires i < |nodes|
  {
    nodes[i := nodes[i].(children := nodes[i].children + [c])]
  }

  /** A project B cap or side under the cylinder `base`: default position and rotation, its own mesh. */
  function PartB<M>(name: string, base: nat, pos: Vec3, scale: Vec3, mesh: M): NodeObject<M>
  {
    NodeObject(Some(name), Of(base), Some(pos), Some(IdentityQuat), Some(scale), Some(mesh), Some(true), [])
  }

  /**
   * The four nodes project B's `makeCyllinder` creates from index `base`
   * under `parent`: the cylinder with no mesh, then its top cap at the
   * origin, its half-size bottom cap at `height` and its side stretched to
   * `height`, each a child of the cylinder; the cylinder's children are the
   * three parts, then `next`.
   */
  function CylinderB<M>(name: string, parent: nat, height: real, pos: Vec3, rot: Rotation, scale: Vec3,
                        circle: M, cyl: M, base: nat, next: seq<nat>): seq<NodeObject<M>>
  {
    [NodeObject(Some(name), Of(parent), Some(pos), Some(rot), Some(scale), None, Some(true),
                [base + 1, base + 2, base + 3] + next),
     PartB(name + "_Top", base, Origin, UnitScale, circle),
     PartB(name + "_Bot", base, Vec3(0.0, 0.0, height), Vec3(0.5, 0.5, 1.0), circle),
     PartB(name + "_Middle", base, Origin, Vec3(1.0, 1.0, height), cyl)]
  }

  /**
   * `makeCyllinder(name, parent, height, pos, rot, scale)` of project B.
   * Each of the four constructors pushes its node into its parent before it
   * checks the name, so the cylinder is a child of `parent` even when a
   * name check throws; it completes exactly when none of the four names is
   * registered.
   */
  method MakeCylinderB<M>(scene: Scene<M>, name: string, parent: nat, height: real, pos: Vec3, rot: Rotation,
                          scale: Vec3, circle: M, cyl: M) returns (node: nat, thrown: Option<string>)
    requires parent < |scene.nodes|
    modifies scene
    ensures node == old(|scene.nodes|) && node < |scene.nodes|
    ensures scene.nodes[parent].children == old(scene.nodes)[parent].children + [node]
    ensures forall i :: 0 <= i < node && i != parent ==> scene.nodes[i] == old(scene.nodes)[i]
    ensures thrown.None? <==> CylinderFresh(old(scene.registry), name)
    ensures thrown.None? ==>
      scene.nodes == Pushed(old(scene.nodes), parent, node) + CylinderB(name, parent, height, pos, rot, scale, circle, cyl, node, [])
    ensures thrown.None? ==> scene.registry == RegisterCylinder(old(scene.registry), name, node)
  {
    SuffixesDistinct(name);
    ghost var s0 := Pushed(scene.nodes, parent, |scene.nodes|);
    node, thrown := scene.NewNode(NodeArgs(Some(name), Some(pos), Some(rot), Some(scale), None), Of(parent));
    if thrown.Some? {
      return;
    }
    ghost var c := CylinderB(name, parent, height, pos, rot, scale, circle, cyl, node, []);
    thrown := AddPartsB(scene, node, name, height, circle, cyl, s0, c[0].(children := []));
    if thrown.None? {
      assert c[0].(children := []).(children := [node + 1, node + 2, node + 3]) == c[0];
      assert s0 + [c[0]] + c[1..] == s0 + c;
    }
  }

  /**
   * The three constructor calls of `makeCyllinder` that make the top cap,
   * the bottom cap and the side of the cylinder `x` at index `node`.
   */
  method AddPartsB<M>(scene: Scene<M>, node: nat, name: string, height: real, circle: M, cyl: M,
                      ghost s0: seq<NodeObject<M>>, ghost x: NodeObject<M>) returns (thrown: Option<string>)
    requires scene.nodes == s0 + [x] && node == |s0| && x.children == []
    modifies scene
    ensures node < |scene.nodes| && forall i :: 0 <= i < node ==> scene.nodes[i] == s0[i]
    ensures thrown.None? <==> name + "_Top" !in old(scene.registry) && name + "_Bot" !in old(scene.registry) &&
                              name + "_Middle" !in old(scene.registry)
    ensures thrown.None? ==>
      scene.nodes == s0 + [x.(children := [node + 1, node + 2, node + 3])] +
                     CylinderB(name, 0, height, Origin, IdentityQuat, UnitScale, circle, cyl, node, [])[1..]
    ensures thrown.None? ==>
      scene.registry == old(scene.registry)[name + "_Top" := node + 1][name + "_Bot" := node + 2][name + "_Middle" := node + 3]
  {
    SuffixesDistinct(name);
    ghost var c := CylinderB(name, 0, height, Origin, IdentityQuat, UnitScale, circle, cyl, node, []);
    var top, bot, mid: nat;
    AppendNil(s0 + [x]);
    top, thrown := AddPartB(scene, node, s0, x, [],
                            NodeArgs(Some(name + "_Top"), Some(Origin), Some(IdentityQuat), Some(UnitScale), Some(circle)));
    if thrown.Some? {
      return;
    }
    assert [] + [top] == [top];
    assert scene.nodes == s0 + [x.(children := [top])] + [c[1]];
    bot, thrown := AddPartB(scene, node, s0, x.(children := [top]), [c[1]],
                            NodeArgs(Some(name + "_Bot"), Some(Vec3(0.0, 0.0, height)), Some(IdentityQuat),
                                     Some(Vec3(0.5, 0.5, 1.0)), Some(circle)));
    if thrown.Some? {
      return;
    }
    assert [top] + [bot] == [top, bot];
    assert scene.nodes == s0 + [x.(children := [top, bot])] + [c[1], c[2]];
    mid, thrown := AddPartB(scene, node, s0, x.(children := [top, bot]), [c[1], c[2]],
                            NodeArgs(Some(name + "_Middle"), Some(Origin), Some(IdentityQuat),
                                     Some(Vec3(1.0, 1.0, height)), Some(cyl)));
    if thrown.Some? {
      return;
    }
    assert [top, bot] + [mid] == [node + 1, node + 2, node + 3];
    assert [c[1], c[2]] + [c[3]] == c[1..];
  }

  /**
   * One constructor call `new SceneGraphNode(name, cylNode, pos, rot,
   * scale, mesh)` inside `makeCyllinder`, on an arena that holds the
   * cylinder `x` at index `node` followed by the parts `rest` made so far.
   */
  method AddPartB<M>(scene: Scene<M>, node: nat, ghost s: seq<NodeObject<M>>, ghost x: NodeObject<M>,
                     ghost rest: seq<NodeObject<M>>, a: NodeArgs<M>) returns (id: nat, thrown: Option<string>)
    requires scene.nodes == s + [x] + rest && node == |s|
    requires a.name.Some? && a.pos.Some? && a.rot.Some? && a.scale.Some?
    modifies scene
    ensures id == old(|scene.nodes|) && id < |scene.nodes| && scene.nodes[node].children == x.children + [id]
    ensures forall i :: 0 <= i < |s| ==> scene.nodes[i] == s[i]
    ensures thrown == NameCheck(old(scene.registry), a.name)
    ensures thrown.None? ==> scene.registry == old(scene.registry)[a.name.value := id]
    ensures thrown.None? ==>
      scene.nodes == s + [x.(children := x.children + [id])] + rest + [NodeObject(a.name, Of(node), a.pos, a.rot, a.scale, a.mesh, Some(true), [])]
  {
    id, thrown := scene.NewNode(a, Of(node));
    ghost var y := x.(children := x.children + [id]);
    assert (s + [x] + rest)[node := y] == s + [y] + rest;
  }

  /** The root `new SceneGraph("CVV")`: every default, no parent, holding `kids`. */
  function RootB<M>(kids: seq<nat>): NodeObject<M>
  {
    NodeObject(Some("CVV"), Undefined, Some(Origin), Some(IdentityQuat), Some(UnitScale), None, Some(true), kids)
  }

  /** The name of cylinder `k` of project B's arm. */
  function ArmNameB(k: nat): string
    requires 1 <= k <= 7
  {
    match k
    case 1 => "l1"
    case 2 => "l2"
    case 3 => "l3"
    case 4 => "l4"
    case 5 => "l5"
    case 6 => "l6"
    case 7 => "l7"
  }

  /** The `height` argument of cylinder `k`. */
  function HeightB(k: nat): real
    requires 1 <= k <= 7
  {
    match k
    case 1 => 4.0
    case 2 => 2.0
    case 3 => 1.0
    case 4 => 0.5
    case 5 => 0.25
    case 6 => 0.125
    case 7 => 0.0625
  }

  /** The `pos` argument of cylinder `k`: `l1` sits off the origin, each later one at the top of its parent. */
  function PosB(k: nat): Vec3
    requires 1 <= k <= 7
  {
    match k
    case 1 => Vec3(3.0, -2.0, 0.0)
    case 2 => Vec3(0.0, 0.0, 4.0)
    case 3 => Vec3(0.0, 0.0, 2.0)
    case 4 => Vec3(0.0, 0.0, 1.0)
    case 5 => Vec3(0.0, 0.0, 0.5)
    case 6 => Vec3(0.0, 0.0, 0.25)
    case 7 => Vec3(0.0, 0.0, 0.125)
  }

  /**
   * Cylinder `k` of project B's arm, holding `next` after its parts: `l1`
   * hangs from `CVV` with rotation `tilt` (the library's
   * `QuatFromEuler(90, 180, 0)`) at a tenth of the size; each later one
   * hangs from the one before, unrotated, at half width.
   */
  function LinkB<M>(k: nat, tilt: Rotation, circle: M, cyl: M, next: seq<nat>): seq<NodeObject<M>>
    requires 1 <= k <= 7
  {
    CylinderB(ArmNameB(k), if k == 1 then 0 else 4 * k - 7, HeightB(k), PosB(k),
              if k == 1 then tilt else IdentityQuat,
              if k == 1 then Vec3(0.1, 0.1, 0.1) else Vec3(0.5, 0.5, 1.0), circle, cyl, 4 * k - 3, next)
  }

  /** The arm: `CVV`, then the seven cylinders, each holding the next. */
  function SceneB<M>(tilt: Rotation, circle: M, cyl: M): seq<NodeObject<M>>
  {
    [RootB([1])] + LinkB(1, tilt, circle, cyl, [5]) + LinkB(2, tilt, circle, cyl, [9]) + LinkB(3, tilt, circle, cyl, [13])
      + LinkB(4, tilt, circle, cyl, [17]) + LinkB(5, tilt, circle, cyl, [21]) + LinkB(6, tilt, circle, cyl, [25]) + LinkB(7, tilt, circle, cyl, [])
  }

  /** `Animation.nodes` once `CVV` and the first `k` cylinders are built. */
  function ArmRegistryB(k: nat): map<string, nat>
    requires k <= 7
  {
    match k
    case 0 => map["CVV" := 0]
    case 1 => map["CVV" := 0, "l1" := 1, "l1_Top" := 2, "l1_Bot" := 3, "l1_Middle" := 4]
    case 2 => map["CVV" := 0, "l1" := 1, "l1_Top" := 2, "l1_Bot" := 3, "l1_Middle" := 4, "l2" := 5,
               "l2_Top" := 6, "l2_Bot" := 7, "l2_Middle" := 8]
    case 3 => map["CVV" := 0, "l1" := 1, "l1_Top" := 2, "l1_Bot" := 3, "l1_Middle" := 4, "l2" := 5,
               "l2_Top" := 6, "l2_Bot" := 7, "l2_Middle" := 8, "l3" := 9, "l3_Top" := 10,
               "l3_Bot" := 11, "l3_Middle" := 12]
    case 4 => map["CVV" := 0, "l1" := 1, "l1_Top" := 2, "l1_Bot" := 3, "l1_Middle" := 4, "l2" := 5,
               "l2_Top" := 6, "l2_Bot" := 7, "l2_Middle" := 8, "l3" := 9, "l3_Top" := 10,
               "l3_Bot" := 11, "l3_Middle" := 12, "l4" := 13, "l4_Top" := 14, "l4_Bot" := 15,
               "l4_Middle" := 16]
    case 5 => map["CVV" := 0, "l1" := 1, "l1_Top" := 2, "l1_Bot" := 3, "l1_Middle" := 4, "l2" := 5,
               "l2_Top" := 6, "l2_Bot" := 7, "l2_Middle" := 8, "l3" := 9, "l3_Top" := 10,
               "l3_Bot" := 11, "l3_Middle" := 12, "l4" := 13, "l4_Top" := 14, "l4_Bot" := 15,
               "l4_Middle" := 16, "l5" := 17, "l5_Top" := 18, "l5_Bot" := 19, "l5_Middle" := 20]
    case 6 => map["CVV" := 0, "l1" := 1, "l1_Top" := 2, "l1_Bot" := 3, "l1_Middle" := 4, "l2" := 5,
               "l2_Top" := 6, "l2_Bot" := 7, "l2_Middle" := 8, "l3" := 9, "l3_Top" := 10,
               "l3_Bot" := 11, "l3_Middle" := 12, "l4" := 13, "l4_Top" := 14, "l4_Bot" := 15,
               "l4_Middle" := 16, "l5" := 17, "l5_Top" := 18, "l5_Bot" := 19, "l5_Middle" := 20,
               "l6" := 21, "l6_Top" := 22, "l6_Bot" := 23, "l6_Middle" := 24]
    case 7 => map["CVV" := 0, "l1" := 1, "l1_Top" := 2, "l1_Bot" := 3, "l1_Middle" := 4, "l2" := 5,
               "l2_Top" := 6, "l2_Bot" := 7, "l2_Middle" := 8, "l3" := 9, "l3_Top" := 10,
               "l3_Bot" := 11, "l3_Middle" := 12, "l4" := 13, "l4_Top" := 14, "l4_Bot" := 15,
               "l4_Middle" := 16, "l5" := 17, "l5_Top" := 18, "l5_Bot" := 19, "l5_Middle" := 20,
               "l6" := 21, "l6_Top" := 22, "l6_Bot" := 23, "l6_Middle" := 24, "l7" := 25,
               "l7_Top" := 26, "l7_Bot" := 27, "l7_Middle" := 28]
  }

  /**
   * Cylinder `k` finds its four names free and registers them. Each index
   * has its own lemma below, so that the string and map facts of one
   * cylinder are proved without those of the other six in scope.
   */
  lemma ArmFreshB(k: nat)
    requires 1 <= k <= 7
    ensures CylinderFresh(ArmRegistryB(k - 1), ArmNameB(k))
    ensures RegisterCylinder(ArmRegistryB(k - 1), ArmNameB(k), 4 * k - 3) == ArmRegistryB(k)
  {
    match k
    case 1 => ArmFreshB1();
    case 2 => ArmFreshB2();
    case 3 => ArmFreshB3();
    case 4 => ArmFreshB4();
    case 5 => ArmFreshB5();
    case 6 => ArmFreshB6();
    case 7 => ArmFreshB7();
  }

  lemma ArmFreshB1()
    ensures CylinderFresh(ArmRegistryB(0), "l1")
    ensures RegisterCylinder(ArmRegistryB(0), "l1", 1) == ArmRegistryB(1)
  {
    assert "l1" + "_Top" == "l1_Top" && "l1" + "_Bot" == "l1_Bot" && "l1" + "_Middle" == "l1_Middle";
  }

  lemma ArmFreshB2()
    ensures CylinderFresh(ArmRegistryB(1), "l2")
    ensures RegisterCylinder(ArmRegistryB(1), "l2", 5) == ArmRegistryB(2)
  {
    assert "l2" + "_Top" == "l2_Top" && "l2" + "_Bot" == "l2_Bot" && "l2" + "_Middle" == "l2_Middle";
  }

  lemma ArmFreshB3()
    ensures CylinderFresh(ArmRegistryB(2), "l3")
    ensures RegisterCylinder(ArmRegistryB(2), "l3", 9) == ArmRegistryB(3)
  {
    assert "l3" + "_Top" == "l3_Top" && "l3" + "_Bot" == "l3_Bot" && "l3" + "_Middle" == "l3_Middle";
  }

  lemma ArmFreshB4()
    ensures CylinderFresh(ArmRegistryB(3), "l4")
    ensures RegisterCylinder(ArmRegistryB(3), "l4", 13) == ArmRegistryB(4)
  {
    assert "l4" + "_Top" == "l4_Top" && "l4" + "_Bot" == "l4_Bot" && "l4" + "_Middle" == "l4_Middle";
  }

  lemma ArmFreshB5()
    ensures CylinderFresh(ArmRegistryB(4), "l5")
    ensures RegisterCylinder(ArmRegistryB(4), "l5", 17) == ArmRegistryB(5)
  {
    assert "l5" + "_Top" == "l5_Top" && "l5" + "_Bot" == "l5_Bot" && "l5" + "_Middle" == "l5_Middle";
  }

  lemma ArmFreshB6()
    ensures CylinderFresh(ArmRegistryB(5), "l6")
    ensures RegisterCylinder(ArmRegistryB(5), "l6", 21) == ArmRegistryB(6)
  {
    assert "l6" + "_Top" == "l6_Top" && "l6" + "_Bot" == "l6_Bot" && "l6" + "_Middle" == "l6_Middle";
  }

  lemma ArmFreshB7()
    ensures CylinderFresh(ArmRegistryB(6), "l7")
    ensures RegisterCylinder(ArmRegistryB(6), "l7", 25) == ArmRegistryB(7)
  {
    assert "l7" + "_Top" == "l7_Top" && "l7" + "_Bot" == "l7_Bot" && "l7" + "_Middle" == "l7_Middle";
  }

  /**
   * `makeCyllinder` for cylinder `k` of the arm, once `CVV` and the
   * cylinders before it are built: the arena ends with the parent `prev`,
   * the cylinder is pushed into it, and no name check throws.
   */
  method AddCylinderB<M>(scene: Scene<M>, k: nat, name: string, parent: nat, height: real, pos: Vec3, rot: Rotation,
                         scale: Vec3, circle: M, cyl: M, ghost p: seq<NodeObject<M>>, ghost prev: seq<NodeObject<M>>)
    returns (node: nat)
    requires 1 <= k <= 7 && name == ArmNameB(k)
    requires |scene.nodes| == 4 * k - 3 && scene.registry == ArmRegistryB(k - 1)
    requires |prev| > 0 && scene.nodes == p + prev && parent == |p|
    modifies scene
    ensures node == 4 * k - 3
    ensures scene.nodes == p + ([prev[0].(children := prev[0].children + [node])] + prev[1..])
                          + CylinderB(name, parent, height, pos, rot, scale, circle, cyl, node, [])
    ensures scene.registry == ArmRegistryB(k)
  {
    ArmFreshB(k);
    var thrown: Option<string>;
    node, thrown := MakeCylinderB(scene, name, parent, height, pos, rot, scale, circle, cyl);
    ReplaceFirst(p, prev, [], prev[0].(children := prev[0].children + [node]));
    AppendNil(p + prev);
    AppendNil(p + ([prev[0].(children := prev[0].children + [node])] + prev[1..]));
  }

  /** A cylinder once `n` is pushed into it after its three parts. */
  lemma CylinderPushedB<M>(name: string, parent: nat, height: real, pos: Vec3, rot: Rotation, scale: Vec3,
                           circle: M, cyl: M, base: nat, n: nat)
    ensures var c := CylinderB(name, parent, height, pos, rot, scale, circle, cyl, base, []);
            [c[0].(children := c[0].children + [n])] + c[1..] == CylinderB(name, parent, height, pos, rot, scale, circle, cyl, base, [n])
  {
    AppendNil([base + 1, base + 2, base + 3]);
  }

  /** Cylinder `k` once its successor `n` is pushed into it. */
  lemma LinkPushedB<M>(k: nat, tilt: Rotation, circle: M, cyl: M, n: nat)
    requires 1 <= k <= 7
    ensures var c := LinkB(k, tilt, circle, cyl, []);
            [c[0].(children := c[0].children + [n])] + c[1..] == LinkB(k, tilt, circle, cyl, [n])
  {
    CylinderPushedB(ArmNameB(k), if k == 1 then 0 else 4 * k - 7, HeightB(k), PosB(k), if k == 1 then tilt else IdentityQuat,
                    if k == 1 then Vec3(0.1, 0.1, 0.1) else Vec3(0.5, 0.5, 1.0), circle, cyl, 4 * k - 3, n);
  }

  /**
   * `makeCyllinder` for cylinder `k` under cylinder `k - 1`, which ends the
   * arena `p + LinkB(k - 1, ...)`.
   */
  method ExtendArmB<M>(scene: Scene<M>, k: nat, tilt: Rotation, circle: M, cyl: M, ghost p: seq<NodeObject<M>>)
    returns (node: nat)
    requires 2 <= k <= 7 && |p| == 4 * k - 7
    requires scene.nodes == p + LinkB(k - 1, tilt, circle, cyl, []) && scene.registry == ArmRegistryB(k - 1)
    modifies scene
    ensures node == 4 * k - 3
    ensures scene.nodes == p + LinkB(k - 1, tilt, circle, cyl, [node]) + LinkB(k, tilt, circle, cyl, [])
    ensures scene.registry == ArmRegistryB(k)
  {
    node := AddCylinderB(scene, k, ArmNameB(k), 4 * k - 7, HeightB(k), PosB(k), IdentityQuat, Vec3(0.5, 0.5, 1.0),
                         circle, cyl, p, LinkB(k - 1, tilt, circle, cyl, []));
    LinkPushedB(k - 1, tilt, circle, cyl, node);
  }

  /**
   * The start of project B's `initSceneGraph` on a fresh page: the
   * root `CVV` and the seven cylinders, each a child of the one before.
   * `tilt` is the first cylinder's rotation.
   */
  method InitArmB<M>(scene: Scene<M>, tilt: Rotation, circle: M, cyl: M) returns (top: nat)
    requires scene.nodes == [] && scene.registry == map[]
    modifies scene
    ensures top == 0
    ensures scene.nodes == SceneB(tilt, circle, cyl) && scene.registry == ArmRegistryB(7)
  {
    var thrown: Option<string>;
    top, thrown := scene.NewNode(NodeArgs(Some("CVV"), None, None, None, None), Undefined);
    assert scene.nodes == [RootB([])];
    var l1 := AddCylinderB(scene, 1, "l1", 0, 4.0, Vec3(3.0, -2.0, 0.0), tilt, Vec3(0.1, 0.1, 0.1), circle, cyl, [], [RootB([])]);
    assert [] + [l1] == [1] && [RootB<M>([])][1..] == [];
    assert [RootB<M>([]).(children := [] + [l1])] + [RootB<M>([])][1..] == [RootB<M>([1])];
    ghost var p := [RootB<M>([1])];
    var l2 := ExtendArmB(scene, 2, tilt, circle, cyl, p);
    p := p + LinkB(1, tilt, circle, cyl, [5]);
    var l3 := ExtendArmB(scene, 3, tilt, circle, cyl, p);
    p := p + LinkB(2, tilt, circle, cyl, [9]);
    UpperArmB(scene, tilt, circle, cyl, p);
  }

  /** `l4` to `l7`, each under the one before, once `l3` ends the arena. */
  method UpperArmB<M>(scene: Scene<M>, tilt: Rotation, circle: M, cyl: M, ghost p: seq<NodeObject<M>>)
    requires |p| == 9 && scene.nodes == p + LinkB(3, tilt, circle, cyl, []) && scene.registry == ArmRegistryB(3)
    modifies scene
    ensures scene.nodes == p + LinkB(3, tilt, circle, cyl, [13]) + LinkB(4, tilt, circle, cyl, [17])
                         + LinkB(5, tilt, circle, cyl, [21]) + LinkB(6, tilt, circle, cyl, [25]) + LinkB(7, tilt, circle, cyl, [])
    ensures scene.registry == ArmRegistryB(7)
  {
    ghost var q := p;
    var l4 := ExtendArmB(scene, 4, tilt, circle, cyl, q);
    q := q + LinkB(3, tilt, circle, cyl, [13]);
    var l5 := ExtendArmB(scene, 5, tilt, circle, cyl, q);
    q := q + LinkB(4, tilt, circle, cyl, [17]);
    var l6 := ExtendArmB(scene, 6, tilt, circle, cyl, q);
    q := q + LinkB(5, tilt, circle, cyl, [21]);
    var l7 := ExtendArmB(scene, 7, tilt, circle, cyl, q);
  }

  /** The meshes of one project B cylinder: its two caps share `circle`, its side holds `cyl`. */
  lemma CylinderMeshesB<M>(name: string, parent: nat, height: real, pos: Vec3, rot: Rotation, scale: Vec3,
                           circle: M, cyl: M, base: nat, next: seq<nat>)
    ensures ArenaMeshes(CylinderB(name, parent, height, pos, rot, scale, circle, cyl, base, next)) == [circle, circle, cyl]
  {
    var c := CylinderB(name, parent, height, pos, rot, scale, circle, cyl, base, next);
    assert c[1..][1..][1..][1..] == [];
    assert ArenaMeshes(c[1..][1..][1..]) == [cyl];
    assert ArenaMeshes(c[1..][1..]) == [circle, cyl];
  }

  lemma LinkMeshesB<M>(k: nat, tilt: Rotation, circle: M, cyl: M, next: seq<nat>)
    requires 1 <= k <= 7
    ensures ArenaMeshes(LinkB(k, tilt, circle, cyl, next)) == [circle, circle, cyl]
  {
    CylinderMeshesB(ArmNameB(k), if k == 1 then 0 else 4 * k - 7, HeightB(k), PosB(k), if k == 1 then tilt else IdentityQuat,
                    if k == 1 then Vec3(0.1, 0.1, 0.1) else Vec3(0.5, 0.5, 1.0), circle, cyl, 4 * k - 3, next);
  }

  /** Appending cylinder `k` adds two circles and one side to the arena's meshes. */
  lemma LinkCountsB<M>(p: seq<NodeObject<M>>, k: nat, tilt: Rotation, circle: M, cyl: M, next: seq<nat>)
    requires 1 <= k <= 7 && circle != cyl
    ensures Count(ArenaMeshes(p + LinkB(k, tilt, circle, cyl, next)), circle) == Count(ArenaMeshes(p), circle) + 2
    ensures Count(ArenaMeshes(p + LinkB(k, tilt, circle, cyl, next)), cyl) == Count(ArenaMeshes(p), cyl) + 1
  {
    LinkMeshesB(k, tilt, circle, cyl, next);
    CylinderCounts(p, LinkB(k, tilt, circle, cyl, next), circle, cyl, circle);
    CylinderCounts(p, LinkB(k, tilt, circle, cyl, next), circle, cyl, cyl);
  }

  /** The arm's nodes hold the circle mesh 14 times and the side mesh 7 times. */
  lemma MeshCountsB<M>(tilt: Rotation, circle: M, cyl: M)
    requires circle != cyl
    ensures Count(ArenaMeshes(SceneB(tilt, circle, cyl)), circle) == 14
    ensures Count(ArenaMeshes(SceneB(tilt, circle, cyl)), cyl) == 7
  {
    var p: seq<NodeObject<M>> := [RootB([1])];
    assert ArenaMeshes(p) == [];
    LinkCountsB(p, 1, tilt, circle, cyl, [5]);
    p := p + LinkB(1, tilt, circle, cyl, [5]);
    LinkCountsB(p, 2, tilt, circle, cyl, [9]);
    p := p + LinkB(2, tilt, circle, cyl, [9]);
    LinkCountsB(p, 3, tilt, circle, cyl, [13]);
    p := p + LinkB(3, tilt, circle, cyl, [13]);
    LinkCountsB(p, 4, tilt, circle, cyl, [17]);
    p := p + LinkB(4, tilt, circle, cyl, [17]);
    LinkCountsB(p, 5, tilt, circle, cyl, [21]);
    p := p + LinkB(5, tilt, circle, cyl, [21]);
    LinkCountsB(p, 6, tilt, circle, cyl, [25]);
    p := p + LinkB(6, tilt, circle, cyl, [25]);
    LinkCountsB(p, 7, tilt, circle, cyl, []);
    p := p + LinkB(7, tilt, circle, cyl, []);
  }

  /**
   * One `circleMesh` object serves the `_Top` and `_Bot` caps of all seven
   * cylinders and one `cyllinderMesh` object their sides: the arm's nodes
   * hold the circle 14 times and the side 7 times, and a walk that skips
   * meshes it has already placed (project B's guarded `buildBuffer`) places
   * each of them once, whatever order it visits the nodes in.
   */
  lemma SharedMeshesB<M>(tilt: Rotation, circle: M, cyl: M)
    requires circle != cyl
    ensures var occ := ArenaMeshes(SceneB(tilt, circle, cyl));
      Count(occ, circle) == 14 && Count(occ, cyl) == 7 &&
      Count(Fresh(occ, {}), circle) == 1 && Count(Fresh(occ, {}), cyl) == 1
  {
    MeshCountsB(tilt, circle, cyl);
    var occ := ArenaMeshes(SceneB(tilt, circle, cyl));
    if circle !in occ {
      CountAbsent(occ, circle);
    }
    if cyl !in occ {
      CountAbsent(occ, cyl);
    }
    SharedPlacedOnce(occ, {}, circle);
    SharedPlacedOnce(occ, {}, cyl);
  }
}
