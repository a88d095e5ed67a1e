/**
 * The per-frame `animate` step of the project main files, reduced to what
 * is not trigonometry: the animation clocks, which advance by the time
 * since the last tick only while their checkbox is set; the `enabled` flags
 * copied from the "shown" checkboxes; and, in project A, the arm position
 * nudged by the held arm keys. Times are the integer milliseconds of
 * `Date.now()`.
 */
module Animate {
  import opened Common
  import opened Controls
  import opened Registry
  import opened SceneTree
  import opened Scenes

  /** A clock after one tick: it advances by `elapsed` only when its animation is on. */
  function Advance(t: int, elapsed: int, on: bool): int
  {
    if on then t + elapsed else t
  }

  /** One frame as seen by a clock: the frame's `Date.now()` and its animation checkbox. */
  datatype Tick = Tick(time: int, on: bool)

  /** A clock and the last tick time after a run of frames. */
  function Run(t: int, last: int, ticks: seq<Tick>): (r: (int, int))
    ensures ticks != [] ==> r.1 == ticks[|ticks| - 1].time
    ensures ticks == [] ==> r == (t, last)
  {
    if ticks == [] then (t, last)
    else
      var prev := Run(t, last, ticks[..|ticks| - 1]);
      var k := ticks[|ticks| - 1];
      (Advance(prev.0, k.time - prev.1, k.on), k.time)
  }

  /**
   * While the animation stays on, the clock keeps its distance to wall
   * time: it advances by exactly the time that passed. While it stays off,
   * the clock stands still.
   */
  lemma {:induction false} RunTracksTime(t: int, last: int, ticks: seq<Tick>)
    ensures (forall i :: 0 <= i < |ticks| ==> ticks[i].on) ==> Run(t, last, ticks).0 - Run(t, last, ticks).1 == t - last
    ensures (forall i :: 0 <= i < |ticks| ==> !ticks[i].on) ==> Run(t, last, ticks).0 == t
  {
    if ticks != [] {
      RunTracksTime(t, last, ticks[..|ticks| - 1]);
    }
  }

  /** `Animation.armTime`, `boxTime`, `boxStep` and the last tick time. */
  class Clocks {
    var armTime: int
    var boxTime: int
    var boxStep: int
    var lastTick: int

    /**
     * The static `lastTick` is the load time; `main` sets both clocks to its
     * own `Date.now()`. The source never initialises `boxStep` (it is
     * `undefined` until the first box tick writes it); 0 is a placeholder that
     * no member reads before `TickB` or `TickC` overwrites it.
     */
    constructor (loaded: int, started: int)
      ensures armTime == started && boxTime == started && boxStep == 0 && lastTick == loaded
    {
      armTime, boxTime, boxStep, lastTick := started, started, 0, loaded;
    }

    /** Project A: each clock advances only while its checkbox is set. */
    method TickA(time: int, armAnimate: bool, boxAnimate: bool)
      modifies this
      ensures armTime == Advance(old(armTime), time - old(lastTick), armAnimate)
      ensures boxTime == Advance(old(boxTime), time - old(lastTick), boxAnimate)
      ensures boxStep == old(boxStep) && lastTick == time
    {
      if armAnimate {
        armTime := armTime + (time - lastTick);
      }
      if boxAnimate {
        boxTime := boxTime + (time - lastTick);
      }
      lastTick := time;
    }

    /** Project B: as project A, and the box step is the elapsed time, or 0 while the boxes are paused. */
    method TickB(time: int, armAnimate: bool, boxAnimate: bool)
      modifies this
      ensures armTime == Advance(old(armTime), time - old(lastTick), armAnimate)
      ensures boxTime == Advance(old(boxTime), time - old(lastTick), boxAnimate)
      ensures boxStep == (if boxAnimate then time - old(lastTick) else 0) && lastTick == time
    {
      if armAnimate {
        armTime := armTime + (time - lastTick);
      }
      boxStep := 0;
      if boxAnimate {
        boxTime := boxTime + (time - lastTick);
        boxStep := time - lastTick;
      }
      lastTick := time;
    }

    /** Project C: both clocks always advance. */
    method TickC(time: int)
      modifies this
      ensures armTime == Advance(old(armTime), time - old(lastTick), true)
      ensures boxTime == Advance(old(boxTime), time - old(lastTick), true)
      ensures boxStep == time - old(lastTick) && lastTick == time
    {
      armTime := armTime + (time - lastTick);
      boxStep := 0;
      boxTime := boxTime + (time - lastTick);
      boxStep := time - lastTick;
      lastTick := time;
    }
  }

  /** `Animation.nodes[name]` names a node of the arena. */
  predicate Has<M>(scene: Scene<M>, name: string)
    reads scene
  {
    name in scene.registry && scene.registry[name] < |scene.nodes|
  }

  /**
   * Project B's "shown" checkboxes: `l1`, `house`, `plane` and `buildings`
   * get `enabled` from their checkbox, in that order; nothing else changes.
   */
  method ShowB<M>(scene: Scene<M>, armShown: bool, boxShown: bool, propShown: bool, buildingsShown: bool)
    requires Has(scene, "l1") && Has(scene, "house") && Has(scene, "plane") && Has(scene, "buildings")
    modifies scene
    ensures scene.registry == old(scene.registry) && |scene.nodes| == old(|scene.nodes|)
    ensures var r := scene.registry;
            scene.nodes == old(scene.nodes)[r["l1"] := old(scene.nodes)[r["l1"]].(enabled := Some(armShown))]
                                           [r["house"] := old(scene.nodes)[r["house"]].(enabled := Some(boxShown))]
                                           [r["plane"] := old(scene.nodes)[r["plane"]].(enabled := Some(propShown))]
                                           [r["buildings"] := old(scene.nodes)[r["buildings"]].(enabled := Some(buildingsShown))]
  {
    scene.SetEnabled(scene.registry["l1"], armShown);
    scene.SetEnabled(scene.registry["house"], boxShown);
    scene.SetEnabled(scene.registry["plane"], propShown);
    scene.SetEnabled(scene.registry["buildings"], buildingsShown);
  }

  /** The step the held arm keys give the drag point in project A: up over down, left over right. */
  function Nudge(held: set<Arm>, x: real, y: real): (r: (real, real))
  {
    var y' := if ArmUp in held then y + 0.01 else if ArmDown in held then y - 0.01 else y;
    var x' := if ArmLeft in held then x - 0.01 else if ArmRight in held then x + 0.01 else x;
    (x', y')
  }

  /** Project A's key handling in `animate`: the held arm keys move the drag point. */
  method NudgeDragA(drag: MouseDrag, held: set<Arm>)
    modifies drag
    ensures (drag.x, drag.y) == Nudge(held, old(drag.x), old(drag.y))
    ensures drag.dragging == old(drag.dragging) && drag.drags == old(drag.drags)
  {
    var step := Nudge(held, drag.x, drag.y);
    drag.x, drag.y := step.0, step.1;
  }

  /** The arm moves by 0.01 per frame along each axis in the commanded direction, never along both directions. */
  lemma NudgePrecedence(held: set<Arm>, x: real, y: real)
    ensures Nudge(held, x, y).0 == x - 0.01 * Commanded(held, ArmLeft, ArmRight) as real
    ensures Nudge(held, x, y).1 == y + 0.01 * Commanded(held, ArmUp, ArmDown) as real
    ensures ArmUp in held ==> Nudge(held, x, y).1 > y
    ensures ArmLeft in held ==> Nudge(held, x, y).0 < x
  {
  }

  /**
   * The slider values `armRotation` and `armWaveAmount` project A's
   * `animate` reads, and `Math.sin`/`Math.cos`, which are floating point.
   */
  datatype Wave = Wave(xRot: real, waveAmount: real, sin: real -> real, cos: real -> real)

  /** The time divisor of cylinder `k`'s wave: 1000 for `l1`, each cylinder waving twice as fast as the one it hangs from. */
  function WavePeriod(k: nat): (r: real)
    requires 1 <= k <= 5
    ensures r > 0.0
    ensures k > 1 ==> 2.0 * r == WavePeriod(k - 1)
  {
    match k
    case 1 => 1000.0
    case 2 => 500.0
    case 3 => 250.0
    case 4 => 125.0
    case 5 => 62.5
  }

  /** The rotation `animate` gives cylinder `k` of the arm at arm time `t`: `l1` also keeps the tilt slider and its half turn. */
  function ArmWave(k: nat, t: int, w: Wave): Rotation
    requires 1 <= k <= 5
  {
    var swing := w.waveAmount * w.sin(t as real / WavePeriod(k));
    if k == 1 then Euler(Vec3(w.xRot, 180.0 + swing, 0.0)) else Euler(Vec3(0.0, swing, 0.0))
  }

  /** The position of `house` at box time `t`: on the circle of radius 0.5 about the origin. */
  function HousePos(t: int, w: Wave): Vec3
  {
    Vec3(0.5 * w.cos(t as real / 500.0), 0.5 * w.sin(t as real / 500.0), 0.0)
  }

  /** The rotation of `house` at box time `t`. */
  function HouseRot(t: int, w: Wave): Rotation
  {
    var s := w.sin(t as real / 500.0);
    Euler(Vec3(90.0 * s, 90.0 * w.cos(t as real / 500.0), 90.0 * -s))
  }

  /** The name of the house `k` of project A's scene, `k` from 2 to 5. */
  function HouseName(k: nat): string
    requires 2 <= k <= 5
  {
    match k
    case 2 => "house2"
    case 3 => "house3"
    case 4 => "house4"
    case 5 => "house5"
  }

  /** Truncation toward zero. */
  function Trunc(y: real): int
  {
    if y >= 0.0 then y.Floor else -((-y).Floor)
  }

  /** JavaScript `x % 360` on numbers: the remainder of the truncated quotient, with the sign of `x`. */
  function Mod360(x: real): (r: real)
    ensures 0.0 <= x ==> 0.0 <= r < 360.0
    ensures x <= 0.0 ==> -360.0 < r <= 0.0
  {
    x - 360.0 * Trunc(x / 360.0) as real
  }

  /** A further full turn leaves a non-negative angle's remainder as it was. */
  lemma Mod360Periodic(x: real)
    requires x >= 0.0
    ensures Mod360(x + 360.0) == Mod360(x)
  {
    assert (x + 360.0) / 360.0 == x / 360.0 + 1.0;
    assert (x / 360.0 + 1.0).Floor == (x / 360.0).Floor + 1;
  }

  /** The box-time divisor of house `k`'s turn: 2, 4, 6 and 8 for `house2` to `house5`. */
  function SpinDivisor(k: nat): (d: real)
    requires 2 <= k <= 5
    ensures d == (2 * (k - 1)) as real
  {
    match k
    case 2 => 2.0
    case 3 => 4.0
    case 4 => 6.0
    case 5 => 8.0
  }

  /** The `y` angle `animate` writes into the rotation of house `k` at box time `t`. */
  function HouseSpin(k: nat, t: int): (r: real)
    requires 2 <= k <= 5
    ensures t >= 0 ==> 0.0 <= r < 360.0
  {
    Mod360(t as real / SpinDivisor(k))
  }

  /** House `k` turns once every `720 (k - 1)` milliseconds of box time. */
  lemma HouseSpinPeriod(k: nat, t: int)
    requires 2 <= k <= 5 && t >= 0
    ensures HouseSpin(k, t + 720 * (k - 1)) == HouseSpin(k, t)
  {
    var d := SpinDivisor(k);
    var q := t as real / d;
    var t2 := t + 720 * (k - 1);
    assert t2 as real == t as real + 360.0 * d;
    ShiftQuotient(t as real, d, q);
    Mod360Periodic(q);
  }

  /** Adding 360 divisor-widths to a number adds 360 to its quotient, for the divisors of `SpinDivisor`. */
  lemma ShiftQuotient(x: real, d: real, q: real)
    requires d == 2.0 || d == 4.0 || d == 6.0 || d == 8.0
    requires q == x / d
    ensures (x + 360.0 * d) / d == q + 360.0
  {
    if d == 2.0 {
      assert (x + 720.0) / 2.0 == x / 2.0 + 360.0;
    } else if d == 4.0 {
      assert (x + 1440.0) / 4.0 == x / 4.0 + 360.0;
    } else if d == 6.0 {
      assert (x + 2160.0) / 6.0 == x / 6.0 + 360.0;
    } else {
      assert (x + 2880.0) / 8.0 == x / 8.0 + 360.0;
    }
  }

  /** The names project A's `animate` writes through. */
  const ArmNamesA: set<string> := {"l1", "l2", "l3", "l4", "l5"}
  const HouseNamesA: set<string> := {"house", "house2", "house3", "house4", "house5"}
  const AnimatedA: set<string> := ArmNamesA + HouseNamesA

  /** Every name of `names` is registered to a node of the arena. */
  predicate Registered<M>(nodes: seq<NodeObject<M>>, registry: map<string, nat>, names: set<string>)
  {
    forall n :: n in names ==> n in registry && registry[n] < |nodes|
  }

  /** Different names of `names` are registered to different nodes. */
  predicate Apart(registry: map<string, nat>, names: set<string>)
    requires names <= registry.Keys
  {
    forall a, b :: a in names && b in names && a != b ==> registry[a] != registry[b]
  }

  /** In a well-formed arena, different registered names are different nodes. */
  lemma NamesApart<M>(nodes: seq<NodeObject<M>>, registry: map<string, nat>, names: set<string>)
    requires WellFormed(nodes, registry) && names <= registry.Keys
    ensures Apart(registry, names)
  {
    forall a, b | a in names && b in names && a != b
      ensures registry[a] != registry[b]
    {
      assert nodes[registry[a]].name == Some(a) && nodes[registry[b]].name == Some(b);
    }
  }

  /** Arena indices of the nodes registered under `names`. */
  function Targets(registry: map<string, nat>, names: set<string>): set<nat>
    requires names <= registry.Keys
  {
    set n | n in names :: registry[n]
  }

  /** The node's rotation is an Euler-angle object. */
  predicate IsEuler<M>(n: NodeObject<M>)
  {
    n.rot.Some? && n.rot.value.Euler?
  }

  /** Each house's rotation is an Euler-angle object `animate` can write `y` into. */
  predicate HouseRotsEuler<M>(nodes: seq<NodeObject<M>>, registry: map<string, nat>)
    requires Registered(nodes, registry, HouseNamesA)
  {
    forall k :: 2 <= k <= 5 ==> IsEuler(nodes[registry[HouseName(k)]])
  }

  /** The arena keeps its length and every Euler rotation stays one. */
  predicate EulerKept<M>(before: seq<NodeObject<M>>, after: seq<NodeObject<M>>)
  {
    |after| == |before| && forall j :: 0 <= j < |before| && IsEuler(before[j]) ==> IsEuler(after[j])
  }

  /** `nodes[i].rot = rot` with a new Euler rotation. */
  function WithRot<M>(nodes: seq<NodeObject<M>>, i: nat, rot: Vec3): (r: seq<NodeObject<M>>)
    requires i < |nodes|
    ensures EulerKept(nodes, r)
  {
    nodes[i := nodes[i].(rot := Some(Euler(rot)))]
  }

  /** `nodes[i].rot.y = y`: the `y` angle of node `i`'s own rotation object. */
  function WithSpin<M>(nodes: seq<NodeObject<M>>, i: nat, y: real): (r: seq<NodeObject<M>>)
    requires i < |nodes| && IsEuler(nodes[i])
    ensures EulerKept(nodes, r)
  {
    nodes[i := nodes[i].(rot := Some(Euler(nodes[i].rot.value.angles.(y := y))))]
  }

  /**
   * What one frame of project A's `animate` writes: the angles of `l1` to
   * `l5`, the position and angles of `house`, and the `y` angles of
   * `house2` to `house5`.
   */
  datatype FramePose = FramePose(arm: seq<Vec3>, housePos: Vec3, houseRot: Vec3, spins: seq<real>)

  /** Five arm angles and four house spins. */
  predicate PoseShaped(p: FramePose)
  {
    |p.arm| == 5 && |p.spins| == 4
  }

  /** The pose `animate` computes from the arm and box times and the sliders. */
  function PoseA(armTime: int, boxTime: int, w: Wave): (p: FramePose)
    ensures PoseShaped(p)
  {
    FramePose([ArmWave(1, armTime, w).angles, ArmWave(2, armTime, w).angles, ArmWave(3, armTime, w).angles,
               ArmWave(4, armTime, w).angles, ArmWave(5, armTime, w).angles],
              HousePos(boxTime, w), HouseRot(boxTime, w).angles,
              [HouseSpin(2, boxTime), HouseSpin(3, boxTime), HouseSpin(4, boxTime), HouseSpin(5, boxTime)])
  }

  /** Cylinder `k` gets its wave for the arm time, and house `k` its spin for the box time. */
  lemma PoseAAt(armTime: int, boxTime: int, w: Wave, k: nat)
    ensures 1 <= k <= 5 ==> PoseA(armTime, boxTime, w).arm[k - 1] == ArmWave(k, armTime, w).angles
    ensures 2 <= k <= 5 ==> PoseA(armTime, boxTime, w).spins[k - 2] == HouseSpin(k, boxTime)
    ensures PoseA(armTime, boxTime, w).housePos == HousePos(boxTime, w)
    ensures PoseA(armTime, boxTime, w).houseRot == HouseRot(boxTime, w).angles
  {
  }

  /** The arena after `l1` to `l5` get the angles `arm`, in that order. */
  function ArmWaved<M>(nodes: seq<NodeObject<M>>, registry: map<string, nat>, arm: seq<Vec3>): (r: seq<NodeObject<M>>)
    requires Registered(nodes, registry, ArmNamesA) && |arm| == 5
    ensures EulerKept(nodes, r)
  {
    var n1 := WithRot(nodes, registry["l1"], arm[0]);
    var n2 := WithRot(n1, registry["l2"], arm[1]);
    var n3 := WithRot(n2, registry["l3"], arm[2]);
    var n4 := WithRot(n3, registry["l4"], arm[3]);
    WithRot(n4, registry["l5"], arm[4])
  }

  /** The arena after `house2` to `house5` take the `y` angles `spins`, in that order. */
  function HousesSpun<M>(nodes: seq<NodeObject<M>>, registry: map<string, nat>, spins: seq<real>): (r: seq<NodeObject<M>>)
    requires Registered(nodes, registry, HouseNamesA) && HouseRotsEuler(nodes, registry) && |spins| == 4
    ensures EulerKept(nodes, r)
  {
    assert IsEuler(nodes[registry[HouseName(2)]]) && IsEuler(nodes[registry[HouseName(3)]]) &&
           IsEuler(nodes[registry[HouseName(4)]]) && IsEuler(nodes[registry[HouseName(5)]]);
    var n2 := WithSpin(nodes, registry["house2"], spins[0]);
    var n3 := WithSpin(n2, registry["house3"], spins[1]);
    var n4 := WithSpin(n3, registry["house4"], spins[2]);
    WithSpin(n4, registry["house5"], spins[3])
  }

  /** `l1.enabled = armShown` and `house.enabled = boxShown`, read from their checkboxes. */
  function ShownA<M>(nodes: seq<NodeObject<M>>, registry: map<string, nat>, armShown: bool, boxShown: bool): (r: seq<NodeObject<M>>)
    requires Registered(nodes, registry, AnimatedA)
    ensures EulerKept(nodes, r)
  {
    var l1 := registry["l1"];
    var house := registry["house"];
    var n0 := nodes[l1 := nodes[l1].(enabled := Some(armShown))];
    n0[house := n0[house].(enabled := Some(boxShown))]
  }

  /** The arena after `house` takes the pose's position and angles and the other houses their spins. */
  function HousesMoved<M>(nodes: seq<NodeObject<M>>, registry: map<string, nat>, p: FramePose): (r: seq<NodeObject<M>>)
    requires Registered(nodes, registry, HouseNamesA) && HouseRotsEuler(nodes, registry) && PoseShaped(p)
    ensures EulerKept(nodes, r)
  {
    var h := registry["house"];
    var n0 := nodes[h := nodes[h].(pos := Some(p.housePos))];
    var n1 := WithRot(n0, h, p.houseRot);
    EulerKeptHouses(nodes, n1, registry);
    HousesSpun(n1, registry, p.spins)
  }

  /**
   * The arena after the arm takes the pose's angles, `l1` moves to the drag
   * point `(x, y)` at its old depth, and the houses move and turn, in that
   * order.
   */
  function MovedA<M>(nodes: seq<NodeObject<M>>, registry: map<string, nat>, x: real, y: real, p: FramePose): (r: seq<NodeObject<M>>)
    requires Registered(nodes, registry, AnimatedA) && nodes[registry["l1"]].pos.Some? && HouseRotsEuler(nodes, registry)
    requires PoseShaped(p)
    ensures |r| == |nodes|
  {
    var l1 := registry["l1"];
    var n2 := ArmWaved(nodes, registry, p.arm);
    var n3 := n2[l1 := n2[l1].(pos := Some(Vec3(x, y, nodes[l1].pos.value.z)))];
    EulerKeptHouses(nodes, n2, registry);
    EulerKeptHouses(n2, n3, registry);
    HousesMoved(n3, registry, p)
  }

  /**
   * The arena after one frame of project A's `animate` with pose `p`: `l1`
   * and `house` shown from their checkboxes, then the arm, `l1` and the
   * houses moved.
   */
  function FrameNodesA<M>(nodes: seq<NodeObject<M>>, registry: map<string, nat>, armShown: bool, boxShown: bool,
                          x: real, y: real, p: FramePose): (r: seq<NodeObject<M>>)
    requires Registered(nodes, registry, AnimatedA) && nodes[registry["l1"]].pos.Some? && HouseRotsEuler(nodes, registry)
    requires PoseShaped(p)
    ensures |r| == |nodes|
  {
    var n1 := ShownA(nodes, registry, armShown, boxShown);
    EulerKeptHouses(nodes, n1, registry);
    MovedA(n1, registry, x, y, p)
  }

  /** A step that keeps Euler rotations Euler keeps the houses' rotations writable. */
  lemma EulerKeptHouses<M>(before: seq<NodeObject<M>>, after: seq<NodeObject<M>>, registry: map<string, nat>)
    requires Registered(before, registry, HouseNamesA) && HouseRotsEuler(before, registry) && EulerKept(before, after)
    ensures Registered(after, registry, HouseNamesA) && HouseRotsEuler(after, registry)
  {
  }

  /** `l1` and `house` take their checkbox values; no other node changes. */
  lemma ShownAAt<M>(nodes: seq<NodeObject<M>>, registry: map<string, nat>, armShown: bool, boxShown: bool)
    requires Registered(nodes, registry, AnimatedA) && Apart(registry, AnimatedA)
    ensures var r := ShownA(nodes, registry, armShown, boxShown);
            r[registry["l1"]] == nodes[registry["l1"]].(enabled := Some(armShown)) &&
            r[registry["house"]] == nodes[registry["house"]].(enabled := Some(boxShown)) &&
            (forall i :: 0 <= i < |nodes| && i != registry["l1"] && i != registry["house"] ==> r[i] == nodes[i])
  {
  }

  /** The arm's five cylinders get their angles; no other node changes. */
  lemma ArmWavedAt<M>(nodes: seq<NodeObject<M>>, registry: map<string, nat>, arm: seq<Vec3>)
    requires Registered(nodes, registry, ArmNamesA) && Apart(registry, ArmNamesA) && |arm| == 5
    ensures var r := ArmWaved(nodes, registry, arm);
            (forall k :: 1 <= k <= 5 ==> r[registry[ArmName(k)]] == nodes[registry[ArmName(k)]].(rot := Some(Euler(arm[k - 1])))) &&
            (forall i :: 0 <= i < |nodes| && i !in Targets(registry, ArmNamesA) ==> r[i] == nodes[i])
  {
  }

  /** `house2` to `house5` get their new `y` angle and keep the others; no other node changes. */
  lemma HousesSpunAt<M>(nodes: seq<NodeObject<M>>, registry: map<string, nat>, spins: seq<real>)
    requires Registered(nodes, registry, HouseNamesA) && HouseRotsEuler(nodes, registry) && Apart(registry, HouseNamesA)
    requires |spins| == 4
    ensures var r := HousesSpun(nodes, registry, spins);
            (forall k :: 2 <= k <= 5 ==>
               var n := nodes[registry[HouseName(k)]];
               r[registry[HouseName(k)]] == n.(rot := Some(Euler(n.rot.value.angles.(y := spins[k - 2]))))) &&
            (forall i :: 0 <= i < |nodes| && i !in Targets(registry, HouseNamesA - {"house"}) ==> r[i] == nodes[i])
  {
  }

  /** `house` takes the pose's position and angles and the other houses their spins; no other node changes. */
  lemma HousesMovedAt<M>(nodes: seq<NodeObject<M>>, registry: map<string, nat>, p: FramePose)
    requires Registered(nodes, registry, HouseNamesA) && HouseRotsEuler(nodes, registry) && Apart(registry, HouseNamesA)
    requires PoseShaped(p)
    ensures var r := HousesMoved(nodes, registry, p);
            var house := registry["house"];
            r[house] == nodes[house].(pos := Some(p.housePos), rot := Some(Euler(p.houseRot))) &&
            (forall k :: 2 <= k <= 5 ==>
               var n := nodes[registry[HouseName(k)]];
               r[registry[HouseName(k)]] == n.(rot := Some(Euler(n.rot.value.angles.(y := p.spins[k - 2]))))) &&
            (forall i :: 0 <= i < |nodes| && i !in Targets(registry, HouseNamesA) ==> r[i] == nodes[i])
  {
    var h := registry["house"];
    var n0 := nodes[h := nodes[h].(pos := Some(p.housePos))];
    var n1 := WithRot(n0, h, p.houseRot);
    EulerKeptHouses(nodes, n1, registry);
    HousesSpunAt(n1, registry, p.spins);
  }

  /** A node other than `l1` and `house` is not shown or hidden. */
  lemma ShownAOther<M>(nodes: seq<NodeObject<M>>, registry: map<string, nat>, armShown: bool, boxShown: bool, i: nat)
    requires Registered(nodes, registry, AnimatedA) && Apart(registry, AnimatedA)
    requires i < |nodes| && i != registry["l1"] && i != registry["house"]
    ensures ShownA(nodes, registry, armShown, boxShown)[i] == nodes[i]
  {
    ShownAAt(nodes, registry, armShown, boxShown);
  }

  /** Cylinder `k` takes its angles. */
  lemma ArmWavedIndex<M>(nodes: seq<NodeObject<M>>, registry: map<string, nat>, arm: seq<Vec3>, k: nat)
    requires Registered(nodes, registry, ArmNamesA) && Apart(registry, ArmNamesA) && |arm| == 5 && 1 <= k <= 5
    ensures ArmWaved(nodes, registry, arm)[registry[ArmName(k)]] == nodes[registry[ArmName(k)]].(rot := Some(Euler(arm[k - 1])))
  {
    ArmWavedAt(nodes, registry, arm);
  }

  /** A node that is not a cylinder of the arm keeps its fields. */
  lemma ArmWavedOther<M>(nodes: seq<NodeObject<M>>, registry: map<string, nat>, arm: seq<Vec3>, i: nat)
    requires Registered(nodes, registry, ArmNamesA) && Apart(registry, ArmNamesA) && |arm| == 5
    requires i < |nodes| && i !in Targets(registry, ArmNamesA)
    ensures ArmWaved(nodes, registry, arm)[i] == nodes[i]
  {
    ArmWavedAt(nodes, registry, arm);
  }

  /** A node that is not a house keeps its fields. */
  lemma HousesMovedOther<M>(nodes: seq<NodeObject<M>>, registry: map<string, nat>, p: FramePose, i: nat)
    requires Registered(nodes, registry, HouseNamesA) && HouseRotsEuler(nodes, registry) && Apart(registry, HouseNamesA)
    requires PoseShaped(p) && i < |nodes| && i !in Targets(registry, HouseNamesA)
    ensures HousesMoved(nodes, registry, p)[i] == nodes[i]
  {
    HousesMovedAt(nodes, registry, p);
  }

  /** Arm `k` and house `k` are animated names, and no name is both an arm's and a house's. */
  lemma AnimatedNames(k: nat)
    requires 2 <= k <= 5
    ensures ArmName(k) in ArmNamesA - {"l1"} && ArmName(k) !in HouseNamesA
    ensures HouseName(k) in HouseNamesA - {"house"} && HouseName(k) !in ArmNamesA
  {
  }

  /** Different registered names of `all`: a name outside `names` is none of their nodes. */
  lemma OutsideTargets(registry: map<string, nat>, names: set<string>, all: set<string>, a: string)
    requires names <= all && all <= registry.Keys && a in all && a !in names && Apart(registry, all)
    ensures registry[a] !in Targets(registry, names)
  {
  }

  /** Nodes untouched by a whole frame are untouched by each of its stages. */
  lemma TargetsSplit(registry: map<string, nat>, i: nat)
    requires AnimatedA <= registry.Keys && i !in Targets(registry, AnimatedA)
    ensures i !in Targets(registry, ArmNamesA) && i !in Targets(registry, HouseNamesA)
    ensures i != registry["l1"] && i != registry["house"]
  {
    assert registry["l1"] in Targets(registry, AnimatedA);
    assert registry["house"] in Targets(registry, AnimatedA);
  }

  /** One frame is the house stage applied after the show, wave and drag stages. */
  lemma FrameNodesAUnfold<M>(nodes: seq<NodeObject<M>>, registry: map<string, nat>, armShown: bool, boxShown: bool,
                             x: real, y: real, p: FramePose)
    requires Registered(nodes, registry, AnimatedA) && nodes[registry["l1"]].pos.Some? && HouseRotsEuler(nodes, registry)
    requires PoseShaped(p)
    ensures var l1 := registry["l1"];
            var n1 := ShownA(nodes, registry, armShown, boxShown);
            var n2 := ArmWaved(n1, registry, p.arm);
            var n3 := n2[l1 := n2[l1].(pos := Some(Vec3(x, y, nodes[l1].pos.value.z)))];
            Registered(n1, registry, AnimatedA) && Registered(n3, registry, HouseNamesA) && HouseRotsEuler(n3, registry) &&
            FrameNodesA(nodes, registry, armShown, boxShown, x, y, p) == HousesMoved(n3, registry, p)
  {
    var l1 := registry["l1"];
    var n1 := ShownA(nodes, registry, armShown, boxShown);
    var n2 := ArmWaved(n1, registry, p.arm);
    var n3 := n2[l1 := n2[l1].(pos := Some(Vec3(x, y, nodes[l1].pos.value.z)))];
    EulerKeptHouses(nodes, n1, registry);
    EulerKeptHouses(n1, n2, registry);
    EulerKeptHouses(n2, n3, registry);
  }

  /** The stages of one frame on an arena whose animated names are different nodes. */
  lemma FrameStagesA<M>(nodes: seq<NodeObject<M>>, registry: map<string, nat>, armShown: bool, boxShown: bool,
                           x: real, y: real, p: FramePose)
    requires AnimatedA <= registry.Keys && Registered(nodes, registry, AnimatedA) && Apart(registry, AnimatedA)
    requires nodes[registry["l1"]].pos.Some? && HouseRotsEuler(nodes, registry) && PoseShaped(p)
    ensures Apart(registry, AnimatedA) && Apart(registry, ArmNamesA) && Apart(registry, HouseNamesA)
    ensures var l1 := registry["l1"];
            var n1 := ShownA(nodes, registry, armShown, boxShown);
            var n2 := ArmWaved(n1, registry, p.arm);
            var n3 := n2[l1 := n2[l1].(pos := Some(Vec3(x, y, nodes[l1].pos.value.z)))];
            Registered(n1, registry, AnimatedA) && Registered(n3, registry, HouseNamesA) && HouseRotsEuler(n3, registry) &&
            FrameNodesA(nodes, registry, armShown, boxShown, x, y, p) == HousesMoved(n3, registry, p)
  {
    FrameNodesAUnfold(nodes, registry, armShown, boxShown, x, y, p);
  }

  /** `l1` is shown from its checkbox, takes its wave angles, and sits at the drag point at its old depth. */
  lemma FrameArmRootA<M>(nodes: seq<NodeObject<M>>, registry: map<string, nat>, armShown: bool, boxShown: bool,
                           x: real, y: real, p: FramePose)
    requires AnimatedA <= registry.Keys && Registered(nodes, registry, AnimatedA) && Apart(registry, AnimatedA)
    requires nodes[registry["l1"]].pos.Some? && HouseRotsEuler(nodes, registry) && PoseShaped(p)
    ensures var l1 := registry["l1"];
            FrameNodesA(nodes, registry, armShown, boxShown, x, y, p)[l1] ==
              nodes[l1].(enabled := Some(armShown), rot := Some(Euler(p.arm[0])),
                         pos := Some(Vec3(x, y, nodes[l1].pos.value.z)))
  {
    FrameStagesA(nodes, registry, armShown, boxShown, x, y, p);
    var l1 := registry["l1"];
    var n1 := ShownA(nodes, registry, armShown, boxShown);
    var n2 := ArmWaved(n1, registry, p.arm);
    var n3 := n2[l1 := n2[l1].(pos := Some(Vec3(x, y, nodes[l1].pos.value.z)))];
    assert n1[l1] == nodes[l1].(enabled := Some(armShown)) by {
      ShownAAt(nodes, registry, armShown, boxShown);
    }
    assert n2[l1] == n1[l1].(rot := Some(Euler(p.arm[0]))) by {
      assert ArmName(1) == "l1";
      ArmWavedAt(n1, registry, p.arm);
    }
    assert HousesMoved(n3, registry, p)[l1] == n3[l1] by {
      OutsideTargets(registry, HouseNamesA, AnimatedA, "l1");
      HousesMovedAt(n3, registry, p);
    }
  }

  /** `l2` to `l5` take their wave angles and nothing else changes in them. */
  lemma FrameArmA<M>(nodes: seq<NodeObject<M>>, registry: map<string, nat>, armShown: bool, boxShown: bool,
                           x: real, y: real, p: FramePose)
    requires AnimatedA <= registry.Keys && Registered(nodes, registry, AnimatedA) && Apart(registry, AnimatedA)
    requires nodes[registry["l1"]].pos.Some? && HouseRotsEuler(nodes, registry) && PoseShaped(p)
    ensures forall k :: 2 <= k <= 5 ==>
              FrameNodesA(nodes, registry, armShown, boxShown, x, y, p)[registry[ArmName(k)]] ==
              nodes[registry[ArmName(k)]].(rot := Some(Euler(p.arm[k - 1])))
  {
    FrameStagesA(nodes, registry, armShown, boxShown, x, y, p);
    var l1 := registry["l1"];
    var n1 := ShownA(nodes, registry, armShown, boxShown);
    var n2 := ArmWaved(n1, registry, p.arm);
    var n3 := n2[l1 := n2[l1].(pos := Some(Vec3(x, y, nodes[l1].pos.value.z)))];
    forall k | 2 <= k <= 5
      ensures HousesMoved(n3, registry, p)[registry[ArmName(k)]] == nodes[registry[ArmName(k)]].(rot := Some(Euler(p.arm[k - 1])))
    {
      var a := registry[ArmName(k)];
      AnimatedNames(k);
      ShownAOther(nodes, registry, armShown, boxShown, a);
      ArmWavedIndex(n1, registry, p.arm, k);
      OutsideTargets(registry, HouseNamesA, AnimatedA, ArmName(k));
      HousesMovedOther(n3, registry, p, a);
    }
  }

  /** `house` is shown from its checkbox and takes the pose's position and angles. */
  lemma FrameHouseA<M>(nodes: seq<NodeObject<M>>, registry: map<string, nat>, armShown: bool, boxShown: bool,
                           x: real, y: real, p: FramePose)
    requires AnimatedA <= registry.Keys && Registered(nodes, registry, AnimatedA) && Apart(registry, AnimatedA)
    requires nodes[registry["l1"]].pos.Some? && HouseRotsEuler(nodes, registry) && PoseShaped(p)
    ensures var house := registry["house"];
            FrameNodesA(nodes, registry, armShown, boxShown, x, y, p)[house] ==
              nodes[house].(enabled := Some(boxShown), pos := Some(p.housePos), rot := Some(Euler(p.houseRot)))
  {
    FrameStagesA(nodes, registry, armShown, boxShown, x, y, p);
    var l1 := registry["l1"];
    var n1 := ShownA(nodes, registry, armShown, boxShown);
    var n2 := ArmWaved(n1, registry, p.arm);
    var n3 := n2[l1 := n2[l1].(pos := Some(Vec3(x, y, nodes[l1].pos.value.z)))];
    var house := registry["house"];
    assert n1[house] == nodes[house].(enabled := Some(boxShown)) by {
      ShownAAt(nodes, registry, armShown, boxShown);
    }
    assert n3[house] == n1[house] by {
      OutsideTargets(registry, ArmNamesA, AnimatedA, "house");
      ArmWavedAt(n1, registry, p.arm);
    }
    HousesMovedAt(n3, registry, p);
  }

  /** `house2` to `house5` take their spin as `y` angle and keep their other angles and fields. */
  lemma FrameSpinA<M>(nodes: seq<NodeObject<M>>, registry: map<string, nat>, armShown: bool, boxShown: bool,
                           x: real, y: real, p: FramePose)
    requires AnimatedA <= registry.Keys && Registered(nodes, registry, AnimatedA) && Apart(registry, AnimatedA)
    requires nodes[registry["l1"]].pos.Some? && HouseRotsEuler(nodes, registry) && PoseShaped(p)
    ensures forall k :: 2 <= k <= 5 ==>
              var n := nodes[registry[HouseName(k)]];
              FrameNodesA(nodes, registry, armShown, boxShown, x, y, p)[registry[HouseName(k)]] ==
              n.(rot := Some(Euler(n.rot.value.angles.(y := p.spins[k - 2]))))
  {
    FrameStagesA(nodes, registry, armShown, boxShown, x, y, p);
    var l1 := registry["l1"];
    var n1 := ShownA(nodes, registry, armShown, boxShown);
    var n2 := ArmWaved(n1, registry, p.arm);
    var n3 := n2[l1 := n2[l1].(pos := Some(Vec3(x, y, nodes[l1].pos.value.z)))];
    forall k | 2 <= k <= 5
      ensures n3[registry[HouseName(k)]] == nodes[registry[HouseName(k)]]
    {
      var h := registry[HouseName(k)];
      AnimatedNames(k);
      assert n1[h] == nodes[h] by {
        ShownAAt(nodes, registry, armShown, boxShown);
      }
      assert n2[h] == n1[h] by {
        OutsideTargets(registry, ArmNamesA, AnimatedA, HouseName(k));
        ArmWavedAt(n1, registry, p.arm);
      }
    }
    HousesMovedAt(n3, registry, p);
  }

  /** Every node not registered under one of the animated names is untouched. */
  lemma FrameOthersA<M>(nodes: seq<NodeObject<M>>, registry: map<string, nat>, armShown: bool, boxShown: bool,
                           x: real, y: real, p: FramePose)
    requires AnimatedA <= registry.Keys && Registered(nodes, registry, AnimatedA) && Apart(registry, AnimatedA)
    requires nodes[registry["l1"]].pos.Some? && HouseRotsEuler(nodes, registry) && PoseShaped(p)
    ensures forall i :: 0 <= i < |nodes| && i !in Targets(registry, AnimatedA) ==>
              FrameNodesA(nodes, registry, armShown, boxShown, x, y, p)[i] == nodes[i]
  {
    FrameStagesA(nodes, registry, armShown, boxShown, x, y, p);
    var l1 := registry["l1"];
    var n1 := ShownA(nodes, registry, armShown, boxShown);
    var n2 := ArmWaved(n1, registry, p.arm);
    var n3 := n2[l1 := n2[l1].(pos := Some(Vec3(x, y, nodes[l1].pos.value.z)))];
    forall i | 0 <= i < |nodes| && i !in Targets(registry, AnimatedA)
      ensures HousesMoved(n3, registry, p)[i] == nodes[i]
    {
      TargetsSplit(registry, i);
      assert n1[i] == nodes[i] by {
        ShownAAt(nodes, registry, armShown, boxShown);
      }
      assert n2[i] == n1[i] by {
        ArmWavedAt(n1, registry, p.arm);
      }
      assert HousesMoved(n3, registry, p)[i] == n3[i] by {
        HousesMovedAt(n3, registry, p);
      }
    }
  }

  /** Project A's `initSceneGraph` registers every animated name, `l1` at 1 and house `k` at `20 + k`. */
  lemma AnimatedRegisteredA()
    ensures forall n :: n in AnimatedA ==> n in RegistryA() && RegistryA()[n] < 26
    ensures RegistryA()["l1"] == 1
    ensures forall k :: 2 <= k <= 5 ==> RegistryA()[HouseName(k)] == 20 + k
  {
    forall k | 1 <= k <= 5
      ensures ArmName(k) in RegistryA() && RegistryA()[ArmName(k)] < 26
    {
      ArmRegisteredA(k);
    }
    ArmRegisteredA(1);
    forall n | n in AnimatedA
      ensures n in RegistryA() && RegistryA()[n] < 26
    {
      if n in ArmNamesA {
        assert n == ArmName(1) || n == ArmName(2) || n == ArmName(3) || n == ArmName(4) || n == ArmName(5);
      }
    }
  }

  /** The scene project A's `initSceneGraph` builds is one `animate` can run on. */
  lemma InitialSceneAnimatableA<M>(circle: M, cyl: M, house: M)
    ensures var nodes := SceneA(circle, cyl, house);
            Registered(nodes, RegistryA(), AnimatedA) && nodes[RegistryA()["l1"]].pos.Some? &&
            HouseRotsEuler(nodes, RegistryA())
  {
    var nodes := SceneA(circle, cyl, house);
    var arm := ArmA(circle, cyl);
    assert |arm| == 20;
    assert nodes[1] == arm[0] == LinkA(1, circle, cyl, [5])[0];
    assert nodes[21..] == HousesA(house);
    AnimatedRegisteredA();
  }

  /** `l1` to `l5` take the angles `arm`, in source order. */
  method WaveArmA<M>(scene: Scene<M>, arm: seq<Vec3>)
    requires Registered(scene.nodes, scene.registry, ArmNamesA) && |arm| == 5
    modifies scene
    ensures scene.registry == old(scene.registry)
    ensures scene.nodes == ArmWaved(old(scene.nodes), scene.registry, arm)
  {
    scene.SetRot(scene.registry["l1"], Euler(arm[0]));
    scene.SetRot(scene.registry["l2"], Euler(arm[1]));
    scene.SetRot(scene.registry["l3"], Euler(arm[2]));
    scene.SetRot(scene.registry["l4"], Euler(arm[3]));
    scene.SetRot(scene.registry["l5"], Euler(arm[4]));
  }

  /** `houseRot.y = y` for house `k`: only the `y` angle of its own rotation object changes. */
  method SpinHouseA<M>(scene: Scene<M>, k: nat, y: real)
    requires 2 <= k <= 5 && HouseName(k) in scene.registry && scene.registry[HouseName(k)] < |scene.nodes|
    requires IsEuler(scene.nodes[scene.registry[HouseName(k)]])
    modifies scene
    ensures scene.registry == old(scene.registry)
    ensures scene.nodes == WithSpin(old(scene.nodes), scene.registry[HouseName(k)], y)
  {
    var i := scene.registry[HouseName(k)];
    var a := scene.nodes[i].rot.value.angles;
    scene.SetRot(i, Euler(a.(y := y)));
  }

  /** `house` takes the pose's position and angles, then `house2` to `house5` their spins. */
  method MoveHousesA<M>(scene: Scene<M>, p: FramePose)
    requires Registered(scene.nodes, scene.registry, HouseNamesA) && HouseRotsEuler(scene.nodes, scene.registry)
    requires PoseShaped(p)
    modifies scene
    ensures scene.registry == old(scene.registry)
    ensures scene.nodes == HousesMoved(old(scene.nodes), scene.registry, p)
  {
    var h := scene.registry["house"];
    scene.SetPos(h, p.housePos);
    scene.SetRot(h, Euler(p.houseRot));
    SpinHouseA(scene, 2, p.spins[0]);
    SpinHouseA(scene, 3, p.spins[1]);
    SpinHouseA(scene, 4, p.spins[2]);
    SpinHouseA(scene, 5, p.spins[3]);
  }

  /** `l1` and `house` are shown from their checkboxes; what the rest of the frame needs of them still holds. */
  method ShowA<M>(scene: Scene<M>, armShown: bool, boxShown: bool)
    requires Registered(scene.nodes, scene.registry, AnimatedA)
    requires scene.nodes[scene.registry["l1"]].pos.Some? && HouseRotsEuler(scene.nodes, scene.registry)
    modifies scene
    ensures scene.registry == old(scene.registry)
    ensures scene.nodes == ShownA(old(scene.nodes), scene.registry, armShown, boxShown)
    ensures Registered(scene.nodes, scene.registry, AnimatedA)
    ensures scene.nodes[scene.registry["l1"]].pos.Some? && HouseRotsEuler(scene.nodes, scene.registry)
  {
    ghost var s0 := scene.nodes;
    scene.SetEnabled(scene.registry["l1"], armShown);
    scene.SetEnabled(scene.registry["house"], boxShown);
    EulerKeptHouses(s0, scene.nodes, scene.registry);
  }

  /**
   * The rest of project A's `animate` once the clocks have ticked: the arm
   * takes the pose's angles, the held arm keys nudge the drag point, `l1`
   * follows it, and the houses move and turn.
   */
  method MoveA<M>(scene: Scene<M>, drag: MouseDrag, held: set<Arm>, p: FramePose)
    requires Registered(scene.nodes, scene.registry, AnimatedA)
    requires scene.nodes[scene.registry["l1"]].pos.Some? && HouseRotsEuler(scene.nodes, scene.registry)
    requires PoseShaped(p)
    modifies scene, drag
    ensures (drag.x, drag.y) == Nudge(held, old(drag.x), old(drag.y))
    ensures drag.dragging == old(drag.dragging) && drag.drags == old(drag.drags)
    ensures scene.registry == old(scene.registry)
    ensures scene.nodes == MovedA(old(scene.nodes), scene.registry, drag.x, drag.y, p)
  {
    ghost var s0 := scene.nodes;
    var l1 := scene.registry["l1"];
    var z := scene.nodes[l1].pos.value.z;
    WaveArmA(scene, p.arm);
    ghost var s1 := scene.nodes;
    EulerKeptHouses(s0, s1, scene.registry);
    NudgeDragA(drag, held);
    scene.SetPos(l1, Vec3(drag.x, drag.y, z));
    EulerKeptHouses(s1, scene.nodes, scene.registry);
    MoveHousesA(scene, p);
  }

  /**
   * Project A's `animate`: `l1` and `house` are shown from their checkboxes,
   * the clocks tick, the arm waves for the new arm time, the drag point is
   * nudged by the held arm keys and `l1` moves to it, and the houses move and
   * turn for the new box time. The names are those `initSceneGraph`
   * registers; the house rotations it writes into must exist.
   */
  method AnimateA<M>(clocks: Clocks, scene: Scene<M>, drag: MouseDrag, keys: ArmKeys, time: int,
                     armShown: bool, boxShown: bool, armAnimate: bool, boxAnimate: bool, w: Wave)
    requires Registered(scene.nodes, scene.registry, AnimatedA)
    requires scene.nodes[scene.registry["l1"]].pos.Some? && HouseRotsEuler(scene.nodes, scene.registry)
    modifies clocks, scene, drag
    ensures clocks.armTime == Advance(old(clocks.armTime), time - old(clocks.lastTick), armAnimate)
    ensures clocks.boxTime == Advance(old(clocks.boxTime), time - old(clocks.lastTick), boxAnimate)
    ensures clocks.lastTick == time && clocks.boxStep == old(clocks.boxStep)
    ensures (drag.x, drag.y) == Nudge(keys.held, old(drag.x), old(drag.y))
    ensures drag.dragging == old(drag.dragging) && drag.drags == old(drag.drags)
    ensures scene.registry == old(scene.registry)
    ensures scene.nodes == FrameNodesA(old(scene.nodes), scene.registry, armShown, boxShown, drag.x, drag.y,
                                       PoseA(clocks.armTime, clocks.boxTime, w))
  {
    ShowA(scene, armShown, boxShown);
    clocks.TickA(time, armAnimate, boxAnimate);
    MoveA(scene, drag, keys.held, PoseA(clocks.armTime, clocks.boxTime, w));
  }
}
