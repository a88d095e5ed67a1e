/**
 * The solid meshes of the project main files: the sphere of project C, the
 * buildings of projects B and C, project B's black box and project A's
 * house. Box-shaped meshes are written as tables of corners (signs of the
 * coordinates) in the order the source lists their vertices; the sphere's
 * points and the random choices are parameters.
 */
module Solids {
  import opened Common
  import opened Meshes

  // ------------------------------------------------------------ box corners

  /** A corner of a box, by the signs of its coordinates (a building's `z` is 0 at the floor and 1 at the roof). */
  datatype Corner = Corner(x: int, y: int, z: int)

  /** The six vertices of each face, two triangles per face, as project B's black box lists them. */
  const CubeCorners: seq<Corner> := [
    Corner(-1, -1, -1), Corner(-1, -1, 1), Corner(1, -1, -1), Corner(1, -1, -1), Corner(-1, -1, 1), Corner(1, -1, 1),
    Corner(-1, -1, -1), Corner(-1, 1, -1), Corner(1, -1, -1), Corner(1, -1, -1), Corner(-1, 1, -1), Corner(1, 1, -1),
    Corner(-1, -1, -1), Corner(-1, 1, -1), Corner(-1, -1, 1), Corner(-1, -1, 1), Corner(-1, 1, -1), Corner(-1, 1, 1),
    Corner(1, 1, 1), Corner(1, -1, 1), Corner(-1, 1, 1), Corner(-1, 1, 1), Corner(1, -1, 1), Corner(-1, -1, 1),
    Corner(1, 1, 1), Corner(1, -1, 1), Corner(1, 1, -1), Corner(1, 1, -1), Corner(1, -1, 1), Corner(1, -1, -1),
    Corner(-1, 1, -1), Corner(-1, 1, 1), Corner(1, 1, -1), Corner(1, 1, -1), Corner(-1, 1, 1), Corner(1, 1, 1)]

  /** Project C's building box (also each window box): bottom, top, -X, +X, -Y and +Y faces. */
  const ShellCornersC: seq<Corner> := [
    Corner(-1, -1, 0), Corner(-1, 1, 0), Corner(1, -1, 0), Corner(-1, 1, 0), Corner(1, 1, 0), Corner(1, -1, 0),
    Corner(-1, -1, 1), Corner(1, -1, 1), Corner(-1, 1, 1), Corner(-1, 1, 1), Corner(1, -1, 1), Corner(1, 1, 1),
    Corner(-1, -1, 0), Corner(-1, -1, 1), Corner(-1, 1, 0), Corner(-1, 1, 0), Corner(-1, -1, 1), Corner(-1, 1, 1),
    Corner(1, -1, 0), Corner(1, 1, 0), Corner(1, -1, 1), Corner(1, 1, 0), Corner(1, 1, 1), Corner(1, -1, 1),
    Corner(-1, -1, 0), Corner(1, -1, 0), Corner(-1, -1, 1), Corner(1, -1, 0), Corner(1, -1, 1), Corner(-1, -1, 1),
    Corner(-1, 1, 0), Corner(-1, 1, 1), Corner(1, 1, 0), Corner(1, 1, 0), Corner(-1, 1, 1), Corner(1, 1, 1)]

  /** Project B's building box (also each window box), with the winding project B wrote. */
  const ShellCornersB: seq<Corner> := [
    Corner(-1, -1, 0), Corner(-1, 1, 0), Corner(1, -1, 0), Corner(-1, 1, 0), Corner(1, -1, 0), Corner(1, 1, 0),
    Corner(-1, -1, 1), Corner(-1, 1, 1), Corner(1, -1, 1), Corner(-1, 1, 1), Corner(1, -1, 1), Corner(1, 1, 1),
    Corner(-1, -1, 0), Corner(-1, 1, 0), Corner(-1, -1, 1), Corner(-1, 1, 0), Corner(-1, -1, 1), Corner(-1, 1, 1),
    Corner(1, -1, 0), Corner(1, 1, 0), Corner(1, -1, 1), Corner(1, 1, 0), Corner(1, -1, 1), Corner(1, 1, 1),
    Corner(-1, -1, 0), Corner(1, -1, 0), Corner(-1, -1, 1), Corner(1, -1, 0), Corner(-1, -1, 1), Corner(1, -1, 1),
    Corner(-1, 1, 0), Corner(1, 1, 0), Corner(-1, 1, 1), Corner(1, 1, 0), Corner(-1, 1, 1), Corner(1, 1, 1)]

  // ---------------------------------------------------------- black box, house

  /** A cube corner of project B's black box and project A's house: coordinates ±0.5. */
  function CubePos(c: Corner): Vec3 { Vec3(0.5 * c.x as real, 0.5 * c.y as real, 0.5 * c.z as real) }

  /** Project B's `initBlackBoxMesh` vertices. */
  function BlackBox(): (r: seq<ColorVertex>)
    ensures |r| == 36
    ensures forall k :: 0 <= k < |r| ==> r[k].color == Origin && r[k].pos == CubePos(CubeCorners[k])
  {
    seq(36, k requires 0 <= k < 36 => ColorVertex(CubePos(CubeCorners[k]), Vec3(0.0, 0.0, 0.0)))
  }

  /** Project B's `initBlackBoxMesh`: a `TRIANGLES` mesh named "BlackBox". */
  method InitBlackBoxMeshB() returns (m: SimpleMesh)
    ensures fresh(m) && m.renderType == TRIANGLES && m.name == "BlackBox"
    ensures m.verts == BlackBox() && m.vboStart.None? && m.vboCount.None?
  {
    m := new SimpleMesh(TRIANGLES, "BlackBox", BlackBox());
  }

  /** The colours of the five walls of project A's house, in the order they are listed. */
  const HouseWallColors: seq<Vec3> := [
    Vec3(0.0, 1.0, 1.0), Vec3(1.0, 1.0, 0.0), Vec3(1.0, 0.0, 1.0), Vec3(0.0, 0.0, 1.0), Vec3(0.0, 1.0, 0.0)]

  /** The tip of the house's roof. */
  const Apex := Vec3(0.0, 0.75, 0.0)

  /** The four roof triangles of project A's house, each from an edge of the top square to the apex. */
  const Roof: seq<ColorVertex> := [
    ColorVertex(Vec3(0.5, 0.5, 0.5), Vec3(1.0, 0.0, 0.0)), ColorVertex(Vec3(0.5, 0.5, -0.5), Vec3(1.0, 0.0, 0.0)), ColorVertex(Apex, Vec3(1.0, 0.0, 0.0)),
    ColorVertex(Vec3(0.5, 0.5, -0.5), Vec3(1.0, 1.0, 1.0)), ColorVertex(Vec3(-0.5, 0.5, -0.5), Vec3(1.0, 1.0, 1.0)), ColorVertex(Apex, Vec3(1.0, 1.0, 1.0)),
    ColorVertex(Vec3(-0.5, 0.5, -0.5), Vec3(0.0, 0.0, 0.0)), ColorVertex(Vec3(-0.5, 0.5, 0.5), Vec3(0.0, 0.0, 0.0)), ColorVertex(Apex, Vec3(0.0, 0.0, 0.0)),
    ColorVertex(Vec3(-0.5, 0.5, 0.5), Vec3(1.0, 0.0, 0.0)), ColorVertex(Vec3(0.5, 0.5, 0.5), Vec3(1.0, 1.0, 0.0)), ColorVertex(Apex, Vec3(1.0, 1.0, 1.0))]

  /**
   * Project A's `initHouseMesh` vertices: the black box's first five faces,
   * one colour per wall, with a four-sided pyramid in place of the +Y face.
   */
  function House(): (r: seq<ColorVertex>)
    ensures |r| == 42
    ensures forall k :: 0 <= k < 30 ==> r[k].pos == BlackBox()[k].pos && r[k].color == HouseWallColors[k / 6]
    ensures r[32].pos == Apex && r[35].pos == Apex && r[38].pos == Apex && r[41].pos == Apex
  {
    seq(30, k requires 0 <= k < 30 => ColorVertex(CubePos(CubeCorners[k]), HouseWallColors[k / 6])) + Roof
  }

  /** Project A's `initHouseMesh`: an unnamed mesh whose render type is set to `TRIANGLES`. */
  method InitHouseMeshA() returns (m: SimpleMesh)
    ensures fresh(m) && m.renderType == TRIANGLES && m.name == ""
    ensures m.verts == House() && m.vboStart.None? && m.vboCount.None?
  {
    m := new SimpleMesh(TRIANGLES, "", House());
  }

  // -------------------------------------------------------------- buildings

  /** The centres of the twelve windows of a floor, three on each wall. */
  const Centers: seq<(real, real)> := [
    (0.76, -0.65), (0.76, 0.0), (0.76, 0.65),
    (-0.76, -0.65), (-0.76, 0.0), (-0.76, 0.65),
    (-0.65, -0.76), (0.0, -0.76), (0.65, -0.76),
    (-0.65, 0.76), (0.0, 0.76), (0.65, 0.76)]

  /** A corner of a building with `floors` floors: the shell is 2 × 2 and `floors` high. */
  function ShellPos(c: Corner, floors: nat): Vec3 { Vec3(c.x as real, c.y as real, c.z as real * floors as real) }

  /** A corner of the window box at `center` on floor `floor`: 0.5 wide, from 0.05 to 0.95 above the floor. */
  function WindowPos(center: (real, real), floor: nat, c: Corner): Vec3
  {
    Vec3(center.0 + 0.25 * c.x as real, center.1 + 0.25 * c.y as real, floor as real + if c.z == 0 then 0.05 else 0.95)
  }

  /** The vertices of floor `i` after `c` windows; `win(i, c)` is window `c` of floor `i`. */
  function Floor<T>(win: (nat, nat) -> seq<T>, i: nat, c: nat): seq<T>
  {
    if c == 0 then [] else Floor(win, i, c - 1) + win(i, c - 1)
  }

  /** The window vertices of the first `f` floors, twelve windows per floor. */
  function Floors<T>(win: (nat, nat) -> seq<T>, f: nat): seq<T>
  {
    if f == 0 then [] else Floors(win, f - 1) + Floor(win, f - 1, 12)
  }

  /** Block `w` of 36 vertices: block 0 is a building's shell, block 1 + 12i + c window c of floor i. */
  function Block<T>(s: seq<T>, w: nat): seq<T>
    requires 36 * w + 36 <= |s|
  {
    s[36 * w .. 36 * w + 36]
  }

  /** Blocks of a concatenation come from its first part, or from its second part shifted by the first's `n` blocks. */
  lemma BlockAppend<T>(a: seq<T>, b: seq<T>, n: nat, w: nat)
    requires |a| == 36 * n
    ensures w < n ==> Block(a + b, w) == Block(a, w)
    ensures n <= w && 36 * w + 36 <= |a| + |b| ==> Block(a + b, w) == Block(b, w - n)
  {
    if w < n {
      assert (a + b)[36 * w .. 36 * w + 36] == a[36 * w .. 36 * w + 36];
    } else if 36 * w + 36 <= |a| + |b| {
      assert (a + b)[36 * w .. 36 * w + 36] == b[36 * (w - n) .. 36 * (w - n) + 36];
    }
  }

  lemma WholeBlock<T>(s: seq<T>)
    requires |s| == 36
    ensures Block(s, 0) == s
  {
  }

  /** Window `c` of floor `i` in `s`, whose windows start after its first `skip` blocks. */
  function WindowOf<T>(s: seq<T>, skip: nat, i: nat, c: nat): seq<T>
    requires 36 * (skip + 12 * i + c) + 36 <= |s|
  {
    Block(s, skip + 12 * i + c)
  }

  /** A floor of twelve 36-vertex windows has 432 vertices, window `d` in block `d`. */
  lemma {:induction false} FloorShape<T>(win: (nat, nat) -> seq<T>, i: nat, c: nat)
    requires c <= 12
    requires forall d :: 0 <= d < 12 ==> |win(i, d)| == 36
    ensures |Floor(win, i, c)| == 36 * c
    ensures forall d {:trigger Block(Floor(win, i, c), d)} :: 0 <= d < c ==> Block(Floor(win, i, c), d) == win(i, d)
  {
    if c > 0 {
      FloorShape(win, i, c - 1);
      forall d | 0 <= d < c
        ensures Block(Floor(win, i, c), d) == win(i, d)
      {
        BlockAppend(Floor(win, i, c - 1), win(i, c - 1), c - 1, d);
      }
    }
  }

  /** `f` floors have 432f window vertices, window `c` of floor `i` in block 12i + c. */
  lemma {:induction false} FloorsShape<T>(win: (nat, nat) -> seq<T>, f: nat)
    requires forall i, d :: 0 <= d < 12 ==> |win(i, d)| == 36
    ensures |Floors(win, f)| == 432 * f
    ensures forall i, c {:trigger WindowOf(Floors(win, f), 0, i, c)} :: 0 <= i < f && 0 <= c < 12 ==>
              WindowOf(Floors(win, f), 0, i, c) == win(i, c)
  {
    if f > 0 {
      FloorsShape(win, f - 1);
      FloorShape(win, f - 1, 12);
      forall i, c | 0 <= i < f && 0 <= c < 12
        ensures WindowOf(Floors(win, f), 0, i, c) == win(i, c)
      {
        FloorsBlock(win, f, i, c);
      }
    }
  }

  /** One step of `FloorsShape`: a window of the last floor, or of an earlier one. */
  lemma FloorsBlock<T>(win: (nat, nat) -> seq<T>, f: nat, i: nat, c: nat)
    requires 0 <= i < f && c < 12
    requires |Floors(win, f - 1)| == 432 * (f - 1)
    requires i < f - 1 ==> WindowOf(Floors(win, f - 1), 0, i, c) == win(i, c)
    requires |Floor(win, f - 1, 12)| == 432
    requires i == f - 1 ==> Block(Floor(win, f - 1, 12), c) == win(i, c)
    ensures 36 * (12 * i + c) + 36 <= |Floors(win, f)|
    ensures WindowOf(Floors(win, f), 0, i, c) == win(i, c)
  {
    var prev := Floors(win, f - 1);
    var floor := Floor(win, f - 1, 12);
    assert Floors(win, f) == prev + floor;
    BlockAppend(prev, floor, 12 * (f - 1), 12 * i + c);
  }

  /** A building: its 36-vertex shell in block 0, then 432 window vertices per floor. */
  lemma BuildingShape<T>(shell: seq<T>, win: (nat, nat) -> seq<T>, floors: nat)
    requires |shell| == 36
    requires forall i, d :: 0 <= d < 12 ==> |win(i, d)| == 36
    ensures |shell + Floors(win, floors)| == 36 + 432 * floors
    ensures |shell + Floors(win, floors)| % 3 == 0
    ensures Block(shell + Floors(win, floors), 0) == shell
  {
    FloorsLength(win, floors);
    var windows := Floors(win, floors);
    assert |shell + windows| == 3 * (12 + 144 * floors);
    BlockAppend(shell, windows, 1, 0);
    WholeBlock(shell);
  }

  lemma {:induction false} FloorsLength<T>(win: (nat, nat) -> seq<T>, f: nat)
    requires forall i, d :: 0 <= d < 12 ==> |win(i, d)| == 36
    ensures |Floors(win, f)| == 432 * f
  {
    if f > 0 {
      FloorsLength(win, f - 1);
      FloorShape(win, f - 1, 12);
    }
  }

  /** After the shell, window c of floor i is block 1 + 12i + c. */
  lemma BuildingWindows<T>(shell: seq<T>, win: (nat, nat) -> seq<T>, floors: nat)
    requires |shell| == 36
    requires forall i, d :: 0 <= d < 12 ==> |win(i, d)| == 36
    ensures |shell + Floors(win, floors)| == 36 + 432 * floors
    ensures forall i, c {:trigger WindowOf(shell + Floors(win, floors), 1, i, c)} :: 0 <= i < floors && 0 <= c < 12 ==>
              WindowOf(shell + Floors(win, floors), 1, i, c) == win(i, c)
  {
    var windows := Floors(win, floors);
    FloorsShape(win, floors);
    forall i, c | 0 <= i < floors && 0 <= c < 12
      ensures WindowOf(shell + windows, 1, i, c) == win(i, c)
    {
      BlockAppend(shell, windows, 1, 1 + 12 * i + c);
      assert WindowOf(windows, 0, i, c) == win(i, c);
    }
  }

  /** Project C's colours: `getGrey`, `getYellow` and `getBlack`. */
  const Grey := Vec3(0.65, 0.65, 0.65)
  const Yellow := Vec3(0.9, 0.9, 0.0)
  const Dark := Vec3(0.05, 0.05, 0.05)

  /** Project C's building shell: grey, with the default normal. */
  function ShellC(floors: nat): (r: seq<Vertex>)
    ensures |r| == 36
  {
    seq(36, k requires 0 <= k < 36 => NewVertex(ShellPos(ShellCornersC[k], floors), Grey, None))
  }

  /** A project C window box, in one colour. */
  function WindowC(center: (real, real), floor: nat, color: Vec3): (r: seq<Vertex>)
    ensures |r| == 36
  {
    seq(36, k requires 0 <= k < 36 => NewVertex(WindowPos(center, floor, ShellCornersC[k]), color, None))
  }

  /**
   * Project C's windows: `lit(i, c)` is whether `Math.random() > 0.9` for
   * window c of floor i, which makes it yellow rather than black.
   */
  function WindowsC(lit: (nat, nat) -> bool): (nat, nat) -> seq<Vertex>
  {
    (i: nat, c: nat) => if c < |Centers| then WindowC(Centers[c], i, if lit(i, c) then Yellow else Dark) else []
  }

  /** Project C's building of `floors` floors. */
  function BuildingC(lit: (nat, nat) -> bool, floors: nat): seq<Vertex>
  {
    ShellC(floors) + Floors(WindowsC(lit), floors)
  }

  /** Every window of `WindowsC` is one 36-vertex box. */
  lemma WindowsCLength(lit: (nat, nat) -> bool)
    ensures forall i, d :: 0 <= d < 12 ==> |WindowsC(lit)(i, d)| == 36
  {
    forall i, d | 0 <= d < 12
      ensures |WindowsC(lit)(i, d)| == 36
    {
      assert WindowsC(lit)(i, d) == WindowC(Centers[d], i, if lit(i, d) then Yellow else Dark);
    }
  }

  /**
   * A project C building has 36 + 432 × floors vertices, a whole number of
   * triangles for `calculateNormals`: the grey shell, then window c of
   * floor i is one box in a single colour, yellow exactly when `lit(i, c)`.
   */
  lemma BuildingCShape(lit: (nat, nat) -> bool, floors: nat)
    ensures |BuildingC(lit, floors)| == 36 + 432 * floors
    ensures |BuildingC(lit, floors)| % 3 == 0
    ensures Block(BuildingC(lit, floors), 0) == ShellC(floors)
    ensures forall i, c {:trigger WindowOf(BuildingC(lit, floors), 1, i, c)} :: 0 <= i < floors && 0 <= c < 12 ==>
              WindowOf(BuildingC(lit, floors), 1, i, c) == WindowC(Centers[c], i, if lit(i, c) then Yellow else Dark)
  {
    var win := WindowsC(lit);
    WindowsCLength(lit);
    BuildingWindows(ShellC(floors), win, floors);
    BuildingShape(ShellC(floors), win, floors);
    forall i, c | 0 <= i < floors && 0 <= c < 12
      ensures WindowOf(BuildingC(lit, floors), 1, i, c) == WindowC(Centers[c], i, if lit(i, c) then Yellow else Dark)
    {
      assert win(i, c) == WindowC(Centers[c], i, if lit(i, c) then Yellow else Dark);
    }
  }

  /** The loops of project C's `initBuildingMesh(numFloors)`, with the random choices as `lit`. */
  method BuildingVertsC(floors: nat, lit: (nat, nat) -> bool) returns (verts: seq<Vertex>)
    ensures verts == BuildingC(lit, floors)
    ensures |verts| == 36 + 432 * floors
  {
    verts := ShellC(floors);
    var i := 0;
    while i < floors
      invariant 0 <= i <= floors
      invariant verts == ShellC(floors) + Floors(WindowsC(lit), i)
    {
      verts := FloorVertsC(lit, i, verts);
      AppendAssoc(ShellC(floors), Floors(WindowsC(lit), i), Floor(WindowsC(lit), i, 12));
      i := i + 1;
    }
    BuildingCShape(lit, floors);
  }

  /** The inner loop of project C's `initBuildingMesh`: the twelve windows of floor `i`. */
  method FloorVertsC(lit: (nat, nat) -> bool, i: nat, before: seq<Vertex>) returns (verts: seq<Vertex>)
    ensures verts == before + Floor(WindowsC(lit), i, 12)
  {
    verts := before;
    var c := 0;
    while c < |Centers|
      invariant 0 <= c <= |Centers|
      invariant verts == before + Floor(WindowsC(lit), i, c)
    {
      var color := if lit(i, c) then Yellow else Dark;
      AppendAssoc(before, Floor(WindowsC(lit), i, c), WindowC(Centers[c], i, color));
      verts := verts + WindowC(Centers[c], i, color);
      c := c + 1;
    }
  }

  /** Project C's `initBuildingMesh`: a `TRIANGLES` mesh named "Building" + the number of floors, drawn with the phong program. */
  method InitBuildingMeshC(floors: nat, lit: (nat, nat) -> bool, phong: Program) returns (m: Mesh)
    ensures fresh(m) && m.renderType == TRIANGLES && m.name == "Building" + NatToString(floors) && m.renderProgram == phong
    ensures m.verts == BuildingC(lit, floors) && m.uniforms == []
    ensures m.vboStart.None? && m.vboCount.None? && m.wireframe.None?
  {
    m := new Mesh(TRIANGLES, "Building" + NatToString(floors), phong);
    m.verts := BuildingVertsC(floors, lit);
  }

  /**
   * Project B's colours draw `Math.random()` once per vertex: `getGrey`
   * adds a tenth of a draw to 0.65, `getYellow` to 0.9 and `getBlack` to 0.
   */
  function GreyB(r: real): Vec3 { Vec3(0.65 + r / 10.0, 0.65 + r / 10.0, 0.65 + r / 10.0) }
  function YellowB(r: real): Vec3 { Vec3(0.9 + r / 10.0, 0.9 + r / 10.0, 0.0) }
  function BlackB(r: real): Vec3 { Vec3(0.0 + r / 10.0, 0.0 + r / 10.0, 0.0 + r / 10.0) }

  /** Project B's building shell: vertex k takes draw k. */
  function ShellB(rand: nat -> real, floors: nat): (r: seq<ColorVertex>)
    ensures |r| == 36
  {
    seq(36, k requires 0 <= k < 36 => ColorVertex(ShellPos(ShellCornersB[k], floors), GreyB(rand(k))))
  }

  /** The number of draws made before window c of floor i: 36 for the shell, then 37 per window. */
  function FirstDraw(i: nat, c: nat): nat { 36 + 37 * (12 * i + c) }

  /**
   * A project B window whose draws start at `start`: the first decides
   * yellow (`> 0.9`) or black, the next 36 shade its vertices one by one.
   */
  function WindowB(center: (real, real), floor: nat, rand: nat -> real, start: nat): (r: seq<ColorVertex>)
    ensures |r| == 36
  {
    var lit := rand(start) > 0.9;
    seq(36, k requires 0 <= k < 36 =>
      ColorVertex(WindowPos(center, floor, ShellCornersB[k]), if lit then YellowB(rand(start + 1 + k)) else BlackB(rand(start + 1 + k))))
  }

  function WindowsB(rand: nat -> real): (nat, nat) -> seq<ColorVertex>
  {
    (i: nat, c: nat) => if c < |Centers| then WindowB(Centers[c], i, rand, FirstDraw(i, c)) else []
  }

  /** Project B's building of `floors` floors, coloured from the draws `rand(0)`, `rand(1)`, ... */
  function BuildingB(rand: nat -> real, floors: nat): seq<ColorVertex>
  {
    ShellB(rand, floors) + Floors(WindowsB(rand), floors)
  }

  /** Every window of `WindowsB` is one 36-vertex box. */
  lemma WindowsBLength(rand: nat -> real)
    ensures forall i, d :: 0 <= d < 12 ==> |WindowsB(rand)(i, d)| == 36
  {
    forall i, d | 0 <= d < 12
      ensures |WindowsB(rand)(i, d)| == 36
    {
      assert WindowsB(rand)(i, d) == WindowB(Centers[d], i, rand, FirstDraw(i, d));
    }
  }

  /** A project B building has 36 + 432 × floors vertices: the shell, then window c of floor i in block 1 + 12i + c. */
  lemma BuildingBShape(rand: nat -> real, floors: nat)
    ensures |BuildingB(rand, floors)| == 36 + 432 * floors
    ensures Block(BuildingB(rand, floors), 0) == ShellB(rand, floors)
    ensures forall i, c {:trigger WindowOf(BuildingB(rand, floors), 1, i, c)} :: 0 <= i < floors && 0 <= c < 12 ==>
              WindowOf(BuildingB(rand, floors), 1, i, c) == WindowB(Centers[c], i, rand, FirstDraw(i, c))
  {
    var win := WindowsB(rand);
    WindowsBLength(rand);
    BuildingWindows(ShellB(rand, floors), win, floors);
    BuildingShape(ShellB(rand, floors), win, floors);
    forall i, c | 0 <= i < floors && 0 <= c < 12
      ensures WindowOf(BuildingB(rand, floors), 1, i, c) == WindowB(Centers[c], i, rand, FirstDraw(i, c))
    {
      assert win(i, c) == WindowB(Centers[c], i, rand, FirstDraw(i, c));
    }
  }

  /**
   * With draws in [0, 1), as `Math.random()` gives them, the shell is a
   * grey between 0.65 and 0.75, and every window is either all yellow
   * (red = green in [0.9, 1), no blue) or all near-black (grey below 0.1).
   */
  lemma BuildingBColors(rand: nat -> real, floors: nat)
    requires forall k :: 0.0 <= rand(k) < 1.0
    ensures forall k :: 0 <= k < 36 ==>
              var g := ShellB(rand, floors)[k].color;
              0.65 <= g.x < 0.75 && g.y == g.x && g.z == g.x
    ensures forall i, c, k :: 0 <= c < 12 && 0 <= k < 36 ==>
              var w := WindowB(Centers[c], i, rand, FirstDraw(i, c));
              var col := w[k].color;
              if rand(FirstDraw(i, c)) > 0.9 then 0.9 <= col.x < 1.0 && col.y == col.x && col.z == 0.0
              else 0.0 <= col.x < 0.1 && col.y == col.x && col.z == col.x
  {
  }

  /** The loops of project B's `initBuildingMesh(numFloors)`, drawing `Math.random()` as `rand(next)`. */
  method BuildingVertsB(floors: nat, rand: nat -> real) returns (verts: seq<ColorVertex>, draws: nat)
    ensures verts == BuildingB(rand, floors)
    ensures |verts| == 36 + 432 * floors && draws == 36 + 444 * floors
  {
    verts := ShellB(rand, floors);
    var next := 36;
    var i := 0;
    while i < floors
      invariant 0 <= i <= floors
      invariant verts == ShellB(rand, floors) + Floors(WindowsB(rand), i)
      invariant next == FirstDraw(i, 0)
    {
      verts, next := FloorVertsB(rand, i, verts, next);
      AppendAssoc(ShellB(rand, floors), Floors(WindowsB(rand), i), Floor(WindowsB(rand), i, 12));
      i := i + 1;
    }
    draws := next;
    BuildingBShape(rand, floors);
  }

  /** The inner loop of project B's `initBuildingMesh`: the twelve windows of floor `i`. */
  method FloorVertsB(rand: nat -> real, i: nat, before: seq<ColorVertex>, first: nat) returns (verts: seq<ColorVertex>, next: nat)
    requires first == FirstDraw(i, 0)
    ensures verts == before + Floor(WindowsB(rand), i, 12)
    ensures next == FirstDraw(i + 1, 0)
  {
    verts, next := before, first;
    var c := 0;
    while c < |Centers|
      invariant 0 <= c <= |Centers|
      invariant verts == before + Floor(WindowsB(rand), i, c)
      invariant next == FirstDraw(i, c)
    {
      var window := WindowB(Centers[c], i, rand, next);
      AppendAssoc(before, Floor(WindowsB(rand), i, c), window);
      verts := verts + window;
      next := next + 37;
      c := c + 1;
    }
  }

  /** Project B's `initBuildingMesh`: a `TRIANGLES` mesh named "Building" + the number of floors. */
  method InitBuildingMeshB(floors: nat, rand: nat -> real) returns (m: SimpleMesh)
    ensures fresh(m) && m.renderType == TRIANGLES && m.name == "Building" + NatToString(floors)
    ensures m.verts == BuildingB(rand, floors) && m.vboStart.None? && m.vboCount.None?
  {
    var verts, draws := BuildingVertsB(floors, rand);
    m := new SimpleMesh(TRIANGLES, "Building" + NatToString(floors), verts);
  }

  // ----------------------------------------------------------------- sphere

  /** Project C's sphere vertices: pale yellow, with the point itself as the normal. */
  const SphereColor := Vec3(1.0, 1.0, 0.5)

  function SphereVertex(p: Vec3): Vertex { NewVertex(p, SphereColor, Some(p)) }

  /** The column to the right of column i; the last column wraps around to the first. */
  function RightColumn(i: nat, n: nat): (r: nat)
    requires i < n
    ensures r == (i + 1) % n
  {
    if i < n - 1 then i + 1 else 0
  }

  /**
   * The two triangles of cell (i, j); `point(i, j)` is `spherePoints[i][j]`,
   * the point at longitude 2πi/n and latitude (j/n - 1/2)π.
   */
  function Cell(point: (nat, nat) -> Vec3, n: nat, i: nat, j: nat): seq<Vertex>
    requires i < n
  {
    var right := RightColumn(i, n);
    var cur := point(i, j);
    var up := point(i, j + 1);
    var rightPoint := point(right, j);
    var upRight := point(right, j + 1);
    [SphereVertex(cur), SphereVertex(upRight), SphereVertex(up), SphereVertex(cur), SphereVertex(rightPoint), SphereVertex(upRight)]
  }

  /** Column i of the sphere after its first `k` cells. */
  function Column(point: (nat, nat) -> Vec3, n: nat, i: nat, k: nat): seq<Vertex>
    requires i < n
  {
    if k == 0 then [] else Column(point, n, i, k - 1) + Cell(point, n, i, k - 1)
  }

  /** The sphere after its first `k` columns of n cells. */
  function Sphere(point: (nat, nat) -> Vec3, n: nat, k: nat): seq<Vertex>
    requires k <= n
  {
    if k == 0 then [] else Sphere(point, n, k - 1) + Column(point, n, k - 1, n)
  }

  /** Every vertex of `s` lies on the sphere's pale-yellow surface with its own position as normal. */
  predicate SphereVertices(s: seq<Vertex>)
  {
    forall k :: 0 <= k < |s| ==> s[k].normal == s[k].pos && s[k].color == SphereColor
  }

  lemma {:induction false} ColumnShape(point: (nat, nat) -> Vec3, n: nat, i: nat, k: nat)
    requires i < n
    ensures |Column(point, n, i, k)| == 6 * k
    ensures SphereVertices(Column(point, n, i, k))
  {
    if k > 0 {
      ColumnShape(point, n, i, k - 1);
      SphereVerticesAppend(Column(point, n, i, k - 1), Cell(point, n, i, k - 1));
    }
  }

  lemma SphereVerticesAppend(a: seq<Vertex>, b: seq<Vertex>)
    requires SphereVertices(a) && SphereVertices(b)
    ensures SphereVertices(a + b)
  {
    assert forall k :: 0 <= k < |a + b| ==> (a + b)[k] == if k < |a| then a[k] else b[k - |a|];
  }

  /**
   * The sphere of n × n cells has 6n² vertices, a whole number of
   * triangles, and every vertex's normal is its own position.
   */
  lemma {:induction false} SphereShape(point: (nat, nat) -> Vec3, n: nat, k: nat)
    requires k <= n
    ensures |Sphere(point, n, k)| == 6 * n * k
    ensures |Sphere(point, n, k)| % 3 == 0
    ensures SphereVertices(Sphere(point, n, k))
  {
    if k > 0 {
      SphereShape(point, n, k - 1);
      ColumnShape(point, n, k - 1, n);
      SphereVerticesAppend(Sphere(point, n, k - 1), Column(point, n, k - 1, n));
      ColumnsLength(n, k);
    }
  }

  /** k columns of 6n vertices each: 6n(k - 1) + 6n = 6nk, a multiple of 3. */
  lemma ColumnsLength(n: nat, k: nat)
    requires k > 0
    ensures 6 * n * (k - 1) + 6 * n == 6 * n * k
    ensures (6 * n * k) % 3 == 0
  {
    assert 6 * n * k == 3 * (2 * n * k);
  }

  /** The first loop of `initSphereMesh(n)`: `spherePoints`, n columns of n + 1 points. */
  method SpherePoints(n: nat, point: (nat, nat) -> Vec3) returns (grid: seq<seq<Vec3>>)
    ensures |grid| == n
    ensures forall i :: 0 <= i < n ==> |grid[i]| == n + 1
    ensures forall i, j :: 0 <= i < n && 0 <= j <= n ==> grid[i][j] == point(i, j)
  {
    grid := [];
    var i := 0;
    while i < n
      invariant 0 <= i <= n && |grid| == i
      invariant forall a :: 0 <= a < i ==> |grid[a]| == n + 1
      invariant forall a, j :: 0 <= a < i && 0 <= j <= n ==> grid[a][j] == point(a, j)
    {
      var column := [];
      var j := 0;
      while j <= n
        invariant 0 <= j <= n + 1 && |column| == j
        invariant forall b :: 0 <= b < j ==> column[b] == point(i, b)
      {
        column := column + [point(i, j)];
        j := j + 1;
      }
      grid := grid + [column];
      i := i + 1;
    }
  }

  /** `initSphereMesh(n)`'s vertex loops: the points, then two triangles per cell, column by column. */
  method SphereVerts(n: nat, point: (nat, nat) -> Vec3) returns (verts: seq<Vertex>)
    ensures verts == Sphere(point, n, n)
    ensures |verts| == 6 * n * n
  {
    var grid := SpherePoints(n, point);
    verts := SphereColumns(n, point, grid);
    SphereShape(point, n, n);
  }

  /** The outer triangle loop of `initSphereMesh(n)`: the n columns, read from `spherePoints`. */
  method SphereColumns(n: nat, point: (nat, nat) -> Vec3, grid: seq<seq<Vec3>>) returns (verts: seq<Vertex>)
    requires |grid| == n
    requires forall a :: 0 <= a < n ==> |grid[a]| == n + 1
    requires forall a, j :: 0 <= a < n && 0 <= j <= n ==> grid[a][j] == point(a, j)
    ensures verts == Sphere(point, n, n)
  {
    verts := [];
    var i := 0;
    while i < n
      invariant 0 <= i <= n
      invariant verts == Sphere(point, n, i)
    {
      verts := ColumnVerts(n, point, grid, i, verts);
      i := i + 1;
    }
  }

  /** The inner loop of `initSphereMesh(n)`: the n cells of column `i`, read from `spherePoints`. */
  method ColumnVerts(n: nat, point: (nat, nat) -> Vec3, grid: seq<seq<Vec3>>, i: nat, before: seq<Vertex>) returns (verts: seq<Vertex>)
    requires i < n && |grid| == n
    requires forall a :: 0 <= a < n ==> |grid[a]| == n + 1
    requires forall a, j :: 0 <= a < n && 0 <= j <= n ==> grid[a][j] == point(a, j)
    ensures verts == before + Column(point, n, i, n)
  {
    verts := before;
    var j := 0;
    while j < n
      invariant 0 <= j <= n
      invariant verts == before + Column(point, n, i, j)
    {
      var current := grid[i][j];
      var up := grid[i][j + 1];
      var right, upRight;
      if i < n - 1 {
        right := grid[i + 1][j];
        upRight := grid[i + 1][j + 1];
      } else {
        right := grid[0][j];
        upRight := grid[0][j + 1];
      }
      var cell := [SphereVertex(current), SphereVertex(upRight), SphereVertex(up),
                   SphereVertex(current), SphereVertex(right), SphereVertex(upRight)];
      assert cell == Cell(point, n, i, j);
      AppendAssoc(before, Column(point, n, i, j), cell);
      verts := verts + cell;
      j := j + 1;
    }
  }

  /** Project C's `initSphereMesh`: a `TRIANGLES` mesh named "Sphere" drawn with the phong program. */
  method InitSphereMeshC(n: nat, point: (nat, nat) -> Vec3, phong: Program) returns (m: Mesh)
    ensures fresh(m) && m.renderType == TRIANGLES && m.name == "Sphere" && m.renderProgram == phong
    ensures m.verts == Sphere(point, n, n) && m.uniforms == []
    ensures m.vboStart.None? && m.vboCount.None? && m.wireframe.None?
  {
    m := new Mesh(TRIANGLES, "Sphere", phong);
    m.verts := SphereVerts(n, point);
  }
}
