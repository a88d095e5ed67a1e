/**
 * The draw traversal (`drawNode`, `selectRenderProgram`): a pre-order walk
 * that skips disabled subtrees, accumulates scale component-wise, keeps a
 * matrix stack and issues GL calls.
 *
 * A `Matrix4` is modelled as the list of transformations applied to it, so
 * two matrices are equal exactly when the same operations were applied in
 * the same order; the floating-point products are not computed. GL calls are
 * recorded as events in a log. `DrawNode` is the event sequence a call
 * produces; the methods are proved to produce it, and the properties of the
 * traversal are lemmas about it (module `RenderFacts`).
 */
module Render {
  import opened Common
  import opened Meshes
  import opened SceneTree

  /** A transformation applied to a `Matrix4` in place. */
  datatype Op =
    | Translate(offset: Vec3)
    | RotateFromQuat(rot: Rotation)
    | RotateAbout(angle: real, axis: Vec3)
    | ScaleBy(factors: Vec3)
    | InvertTranspose
    | Projection(width: real, height: real)
    | LookAt(eye: Vec3, center: Vec3, up: Vec3)

  /** A matrix: the operations applied since `new Matrix4()`. */
  type Mat = seq<Op>

  /**
   * The rotation `drawNode` applies: `rotateFromQuat(node.rot)` in projects B
   * and C, three `rotate` calls about x, y and z in that order in project A.
   */
  function RotOps(r: Rotation): seq<Op>
  {
    match r
    case Quat(_, _, _, _) => [RotateFromQuat(r)]
    case Euler(a) =>
      [RotateAbout(a.x, Vec3(1.0, 0.0, 0.0)), RotateAbout(a.y, Vec3(0.0, 1.0, 0.0)), RotateAbout(a.z, Vec3(0.0, 0.0, 1.0))]
  }

  /**
   * A recorded call. `Push` carries the matrix `pushMatrix` copies; `Bind` is a
   * uniform binder called with the location of the named uniform; a draw
   * carries the mesh, what GL is told, the accumulated scale and the model
   * matrix in effect.
   */
  datatype Event<M> =
    | Push(saved: Mat)
    | Pop
    | UseProgram(program: Program)
    | Bind(attr: string)
    | UniformMatrix(uniform: string, value: Mat)
    | UniformVec(uniform: string, vec: Vec3)
    | DrawArrays(mesh: M, mode: int, first: Option<nat>, count: Option<nat>, scale: Vec3, model: Mat)
    | DrawElements(mesh: M, size: nat, scale: Vec3, model: Mat)
    | SetViewport(x: real, y: real, width: real, height: real)
    | Clear

  /** What `drawNode` reads of a mesh. */
  datatype MeshView = MeshView(
    renderType: int,
    vboStart: Option<nat>,
    vboCount: Option<nat>,
    program: Program,
    uniforms: seq<string>,
    wireframe: Option<seq<nat>>)

  ghost function View(scene: set<Mesh>): map<Mesh, MeshView>
    reads scene
  {
    map m | m in scene :: MeshView(m.renderType, m.vboStart, m.vboCount, m.renderProgram, m.uniforms, m.wireframe)
  }

  /** Project A/B meshes carry no program, binders or wireframe. */
  const NoProgram := Program("", {}, None, None, None, None)

  ghost function SimpleView(scene: set<SimpleMesh>): map<SimpleMesh, MeshView>
    reads scene
  {
    map m | m in scene :: MeshView(m.renderType, m.vboStart, m.vboCount, NoProgram, [], None)
  }

  /** Every mesh of the tree has a view. */
  predicate Viewed<M>(t: Node<M>, info: map<M, MeshView>)
  {
    (t.mesh.Some? ==> t.mesh.value in info) &&
    forall i :: 0 <= i < |t.children| ==> Viewed(t.children[i], info)
  }

  /**
   * Project C selects each mesh's own program and binds uniforms; projects
   * A and B set `u_ModelMatrix` of the one global program. Project A's second
   * framework (`checksEnabled` false) has no `enabled` test.
   */
  datatype Style = Shaded | Plain(checksEnabled: bool)

  predicate ChecksEnabled(s: Style) { s.Shaded? || s.checksEnabled }

  /**
   * What stays fixed during one traversal: the style, the names of the global
   * binders (`Context.uniformValues`), wireframe mode, and the projection
   * matrix and camera position project C passes down.
   */
  datatype Frame = Frame(style: Style, globals: seq<string>, wireframe: bool, projection: Mat, cameraPos: Vec3)

  const ModelMatrixName := "u_ModelMatrix"

  /** The binders among `names` that the program declares, called in order. */
  function Binders<M>(names: seq<string>, ids: set<string>): seq<Event<M>>
  {
    if names == [] then []
    else Binders(names[..|names| - 1], ids) + (if names[|names| - 1] in ids then [Bind(names[|names| - 1])] else [])
  }

  /** `selectRenderProgram`. */
  function Selection<M>(p: Program, globals: seq<string>): seq<Event<M>>
  {
    [UseProgram(p)] + Binders(globals, p.attribIds)
  }

  /** The model matrix project C uploads: scaled only when the program has a model-matrix uniform. */
  function ModelOf(p: Program, m1: Mat, s1: Vec3): Mat
  {
    if Truthy(p.modelMatrixAttrib) then m1 + [ScaleBy(s1)] else m1
  }

  /** The projection, camera, model and normal uniforms, each only when the program names it. */
  function RoleUniforms<M>(p: Program, f: Frame, model: Mat): seq<Event<M>>
  {
    (if Truthy(p.projectionMatrixAttrib) then [UniformMatrix(p.projectionMatrixAttrib.value, f.projection)] else []) +
    (if Truthy(p.cameraPosAttrib) then [UniformVec(p.cameraPosAttrib.value, f.cameraPos)] else []) +
    (if Truthy(p.modelMatrixAttrib) then [UniformMatrix(p.modelMatrixAttrib.value, model)] else []) +
    (if Truthy(p.normalMatrixAttrib) then [UniformMatrix(p.normalMatrixAttrib.value, model + [InvertTranspose])] else [])
  }

  /** Lines from the wireframe index list when wireframe mode is on and one exists, else the mesh's own primitives. */
  function DrawCall<M>(mesh: M, v: MeshView, wireframe: bool, s1: Vec3, model: Mat): Event<M>
  {
    if wireframe && v.wireframe.Some? then DrawElements(mesh, |v.wireframe.value|, s1, model)
    else DrawArrays(mesh, v.renderType, v.vboStart, v.vboCount, s1, model)
  }

  /** The `if (node.mesh)` block, between its own push and pop. */
  function MeshEvents<M>(mesh: M, v: MeshView, m1: Mat, s1: Vec3, f: Frame): seq<Event<M>>
  {
    if f.style.Shaded? then
      var model := ModelOf(v.program, m1, s1);
      [Push(m1)] + Selection(v.program, f.globals) + RoleUniforms(v.program, f, model) +
        Binders(v.uniforms, v.program.attribIds) + [DrawCall(mesh, v, f.wireframe, s1, model), Pop]
    else
      var model := m1 + [ScaleBy(s1)];
      [Push(m1), UniformMatrix(ModelMatrixName, model), DrawArrays(mesh, v.renderType, v.vboStart, v.vboCount, s1, model), Pop]
  }

  /** The model matrix after the node's translation (by the position times the incoming scale) and rotation. */
  function Local<M>(t: Node<M>, m: Mat, s: Vec3): Mat
  {
    m + [Translate(Mul(s, t.pos))] + RotOps(t.rot)
  }

  function OwnEvents<M>(t: Node<M>, m1: Mat, s1: Vec3, f: Frame, info: map<M, MeshView>): seq<Event<M>>
    requires Viewed(t, info)
  {
    if t.mesh.Some? then MeshEvents(t.mesh.value, info[t.mesh.value], m1, s1, f) else []
  }

  /** The events of `drawNode(m, t, s)`. */
  function DrawNode<M>(t: Node<M>, m: Mat, s: Vec3, f: Frame, info: map<M, MeshView>): seq<Event<M>>
    requires Viewed(t, info)
    decreases t, 1
  {
    if ChecksEnabled(f.style) && !t.enabled then []
    else
      var m1 := Local(t, m, s);
      var s1 := Mul(s, t.scale);
      [Push(m)] + OwnEvents(t, m1, s1, f, info) + DrawChildren(t, |t.children|, m1, s1, f, info) + [Pop]
  }

  /** The first `k` children, each drawn from the same matrix and scale. */
  function DrawChildren<M>(t: Node<M>, k: nat, m1: Mat, s1: Vec3, f: Frame, info: map<M, MeshView>): seq<Event<M>>
    requires k <= |t.children| && Viewed(t, info)
    decreases t, 0, k
  {
    if k == 0 then []
    else DrawChildren(t, k - 1, m1, s1, f, info) + DrawNode(t.children[k - 1], m1, s1, f, info)
  }

  /** The GL context as far as drawing goes: the matrix stack of `pushMatrix`/`popMatrix` and the calls made. */
  class Renderer<M> {
    var stack: seq<Mat>
    var log: seq<Event<M>>

    constructor ()
      ensures stack == [] && log == []
    {
      stack := [];
      log := [];
    }

    /** `pushMatrix(m)`: a copy of `m` goes on the stack. */
    method PushMatrix(m: Mat)
      modifies this
      ensures stack == old(stack) + [m] && log == old(log) + [Push(m)]
    {
      stack := stack + [m];
      log := log + [Push(m)];
    }

    /** `popMatrix()`: the top of the stack comes off and is returned. */
    method PopMatrix() returns (m: Mat)
      requires |stack| > 0
      modifies this
      ensures m == old(stack)[|old(stack)| - 1] && stack == old(stack)[..|old(stack)| - 1]
      ensures log == old(log) + [Pop]
    {
      m := stack[|stack| - 1];
      stack := stack[..|stack| - 1];
      log := log + [Pop];
    }

    /** Any other GL call. */
    method Emit(e: Event<M>)
      modifies this
      ensures stack == old(stack) && log == old(log) + [e]
    {
      log := log + [e];
    }
  }

  /** `for (let attr in binders) if (attr in renderProgram.attribIds) binders[attr](...)`. */
  method CallBinders<M>(gl: Renderer<M>, names: seq<string>, ids: set<string>)
    modifies gl
    ensures gl.stack == old(gl.stack) && gl.log == old(gl.log) + Binders(names, ids)
  {
    var i := 0;
    while i < |names|
      invariant i <= |names| && gl.stack == old(gl.stack)
      invariant gl.log == old(gl.log) + Binders(names[..i], ids)
    {
      assert names[..i + 1][..i] == names[..i];
      if names[i] in ids {
        gl.Emit(Bind(names[i]));
      }
      i := i + 1;
    }
    assert names[..i] == names;
  }

  /** `selectRenderProgram(renderProgram)`: use the program, then call the global binders it declares. */
  method SelectRenderProgram<M>(gl: Renderer<M>, p: Program, globals: seq<string>)
    modifies gl
    ensures gl.stack == old(gl.stack) && gl.log == old(gl.log) + Selection(p, globals)
  {
    gl.Emit(UseProgram(p));
    CallBinders(gl, globals, p.attribIds);
  }

  /** The uniforms project C sets from the program's role names; returns the model matrix it used. */
  method SetRoleUniforms(gl: Renderer<Mesh>, p: Program, f: Frame, m1: Mat, s1: Vec3) returns (model: Mat)
    modifies gl
    ensures model == ModelOf(p, m1, s1)
    ensures gl.stack == old(gl.stack) && gl.log == old(gl.log) + RoleUniforms(p, f, model)
  {
    if Truthy(p.projectionMatrixAttrib) {
      gl.Emit(UniformMatrix(p.projectionMatrixAttrib.value, f.projection));
    }
    if Truthy(p.cameraPosAttrib) {
      gl.Emit(UniformVec(p.cameraPosAttrib.value, f.cameraPos));
    }
    model := m1;
    if Truthy(p.modelMatrixAttrib) {
      model := model + [ScaleBy(s1)];
      gl.Emit(UniformMatrix(p.modelMatrixAttrib.value, model));
    }
    if Truthy(p.normalMatrixAttrib) {
      gl.Emit(UniformMatrix(p.normalMatrixAttrib.value, model + [InvertTranspose]));
    }
  }

  /** The `if (node.mesh)` block of project C `drawNode`. */
  method DrawMesh(gl: Renderer<Mesh>, m1: Mat, mesh: Mesh, s1: Vec3, f: Frame, ghost scene: set<Mesh>) returns (r: Mat)
    requires mesh in scene && f.style.Shaded?
    modifies gl
    ensures r == m1 && gl.stack == old(gl.stack)
    ensures gl.log == old(gl.log) + MeshEvents(mesh, View(scene)[mesh], m1, s1, f)
  {
    ghost var v := View(scene)[mesh];
    assert v == MeshView(mesh.renderType, mesh.vboStart, mesh.vboCount, mesh.renderProgram, mesh.uniforms, mesh.wireframe);
    gl.PushMatrix(m1);
    ghost var l1 := gl.log;
    var p := mesh.renderProgram;
    SelectRenderProgram(gl, p, f.globals);
    ghost var l2 := gl.log;
    var model := SetRoleUniforms(gl, p, f, m1, s1);
    ghost var l3 := gl.log;
    CallBinders(gl, mesh.uniforms, p.attribIds);
    ghost var l4 := gl.log;
    var call := if f.wireframe && mesh.wireframe.Some? then DrawElements(mesh, |mesh.wireframe.value|, s1, model)
                else DrawArrays(mesh, mesh.renderType, mesh.vboStart, mesh.vboCount, s1, model);
    gl.Emit(call);
    PushPop(old(gl.stack), m1);
    r := gl.PopMatrix();
    ShadedMeshLog(old(gl.log), mesh, v, m1, s1, f, l2[|l1|..], l3[|l2|..], l4[|l3|..], call, gl.log);
  }

  /** The log after the steps of project C's mesh block is the old log followed by `MeshEvents`. */
  lemma ShadedMeshLog<M>(l0: seq<Event<M>>, mesh: M, v: MeshView, m1: Mat, s1: Vec3, f: Frame,
                         sel: seq<Event<M>>, roles: seq<Event<M>>, binds: seq<Event<M>>, call: Event<M>, l: seq<Event<M>>)
    requires f.style.Shaded?
    requires sel == Selection(v.program, f.globals)
    requires roles == RoleUniforms(v.program, f, ModelOf(v.program, m1, s1))
    requires binds == Binders(v.uniforms, v.program.attribIds)
    requires call == DrawCall(mesh, v, f.wireframe, s1, ModelOf(v.program, m1, s1))
    requires l == l0 + [Push(m1)] + sel + roles + binds + [call] + [Pop]
    ensures l == l0 + MeshEvents(mesh, v, m1, s1, f)
  {
  }

  /**
   * Project C `drawNode(modelMatrix, node, scale, projectionMatrix, cameraPos)`.
   * The matrix handed back equals the one passed in, and the stack is as it
   * was: every push is matched by a pop.
   */
  method DrawNodeShaded(gl: Renderer<Mesh>, m: Mat, t: Node<Mesh>, s: Vec3, f: Frame, ghost scene: set<Mesh>)
    returns (r: Mat)
    requires Viewed(t, View(scene)) && f.style.Shaded?
    modifies gl
    ensures r == m && gl.stack == old(gl.stack)
    ensures gl.log == old(gl.log) + DrawNode(t, m, s, f, View(scene))
    decreases t, 1
  {
    if !t.enabled {
      SkippedLog(gl.log, t, m, s, f, View(scene));
      return m;
    }
    gl.PushMatrix(m);
    var mm := m + [Translate(Mul(s, t.pos))];
    mm := mm + RotOps(t.rot);
    var s1 := Mul(s, t.scale);
    if t.mesh.Some? {
      mm := DrawMesh(gl, mm, t.mesh.value, s1, f, scene);
    }
    assert mm == Local(t, m, s);
    ghost var head := gl.log;
    assert head == old(gl.log) + [Push(m)] + OwnEvents(t, mm, s1, f, View(scene));
    DrawChildrenShaded(gl, mm, t, s1, f, scene);
    ghost var kids := gl.log;
    PushPop(old(gl.stack), m);
    r := gl.PopMatrix();
    NodeLog(old(gl.log), t, m, s, f, View(scene), head, kids, gl.log);
  }

  /** The `for (child of node.children)` loop: each child drawn from the matrix the previous one handed back. */
  method DrawChildrenShaded(gl: Renderer<Mesh>, m1: Mat, t: Node<Mesh>, s1: Vec3, f: Frame, ghost scene: set<Mesh>)
    requires Viewed(t, View(scene)) && f.style.Shaded?
    modifies gl
    ensures gl.stack == old(gl.stack)
    ensures gl.log == old(gl.log) + DrawChildren(t, |t.children|, m1, s1, f, View(scene))
    decreases t, 0
  {
    ghost var V := View(scene);
    var mm := m1;
    var k := 0;
    while k < |t.children|
      invariant k <= |t.children| && mm == m1
      invariant gl.stack == old(gl.stack)
      invariant gl.log == old(gl.log) + DrawChildren(t, k, m1, s1, f, V)
    {
      mm := DrawNodeShaded(gl, mm, t.children[k], s1, f, scene);
      ChildLog(old(gl.log), t, k, m1, s1, f, V, gl.log);
      k := k + 1;
    }
  }

  /** The `if (node.mesh)` block of project A/B `drawNode`. */
  method DrawSimpleMesh(gl: Renderer<SimpleMesh>, m1: Mat, mesh: SimpleMesh, s1: Vec3, f: Frame, ghost scene: set<SimpleMesh>)
    returns (r: Mat)
    requires mesh in scene && f.style.Plain?
    modifies gl
    ensures r == m1 && gl.stack == old(gl.stack)
    ensures gl.log == old(gl.log) + MeshEvents(mesh, SimpleView(scene)[mesh], m1, s1, f)
  {
    gl.PushMatrix(m1);
    var model := m1 + [ScaleBy(s1)];
    gl.Emit(UniformMatrix(ModelMatrixName, model));
    gl.Emit(DrawArrays(mesh, mesh.renderType, mesh.vboStart, mesh.vboCount, s1, model));
    PushPop(old(gl.stack), m1);
    r := gl.PopMatrix();
  }

  /**
   * Project A/B `drawNode(modelMatrix, node, scale)`; with `checksEnabled`
   * false it is the second project A framework's, which draws disabled
   * nodes too.
   */
  method DrawNodePlain(gl: Renderer<SimpleMesh>, m: Mat, t: Node<SimpleMesh>, s: Vec3, f: Frame, ghost scene: set<SimpleMesh>)
    returns (r: Mat)
    requires Viewed(t, SimpleView(scene)) && f.style.Plain?
    modifies gl
    ensures r == m && gl.stack == old(gl.stack)
    ensures gl.log == old(gl.log) + DrawNode(t, m, s, f, SimpleView(scene))
    decreases t, 1
  {
    if f.style.checksEnabled && !t.enabled {
      SkippedLog(gl.log, t, m, s, f, SimpleView(scene));
      return m;
    }
    gl.PushMatrix(m);
    var mm := m + [Translate(Mul(s, t.pos))];
    mm := mm + RotOps(t.rot);
    var s1 := Mul(s, t.scale);
    if t.mesh.Some? {
      mm := DrawSimpleMesh(gl, mm, t.mesh.value, s1, f, scene);
    }
    assert mm == Local(t, m, s);
    ghost var head := gl.log;
    assert head == old(gl.log) + [Push(m)] + OwnEvents(t, mm, s1, f, SimpleView(scene));
    DrawChildrenPlain(gl, mm, t, s1, f, scene);
    ghost var kids := gl.log;
    PushPop(old(gl.stack), m);
    r := gl.PopMatrix();
    NodeLog(old(gl.log), t, m, s, f, SimpleView(scene), head, kids, gl.log);
  }

  /** The `for (child of node.children)` loop: each child drawn from the matrix the previous one handed back. */
  method DrawChildrenPlain(gl: Renderer<SimpleMesh>, m1: Mat, t: Node<SimpleMesh>, s1: Vec3, f: Frame, ghost scene: set<SimpleMesh>)
    requires Viewed(t, SimpleView(scene)) && f.style.Plain?
    modifies gl
    ensures gl.stack == old(gl.stack)
    ensures gl.log == old(gl.log) + DrawChildren(t, |t.children|, m1, s1, f, SimpleView(scene))
    decreases t, 0
  {
    ghost var V := SimpleView(scene);
    var mm := m1;
    var k := 0;
    while k < |t.children|
      invariant k <= |t.children| && mm == m1
      invariant gl.stack == old(gl.stack)
      invariant gl.log == old(gl.log) + DrawChildren(t, k, m1, s1, f, V)
    {
      mm := DrawNodePlain(gl, mm, t.children[k], s1, f, scene);
      ChildLog(old(gl.log), t, k, m1, s1, f, V, gl.log);
      k := k + 1;
    }
  }

  /** Drawing child `k` extends the log of the first `k` children to that of the first `k + 1`. */
  lemma ChildLog<M>(head: seq<Event<M>>, t: Node<M>, k: nat, m1: Mat, s1: Vec3, f: Frame, info: map<M, MeshView>, l: seq<Event<M>>)
    requires k < |t.children| && Viewed(t, info)
    requires l == head + DrawChildren(t, k, m1, s1, f, info) + DrawNode(t.children[k], m1, s1, f, info)
    ensures l == head + DrawChildren(t, k + 1, m1, s1, f, info)
  {
    AppendAssoc(head, DrawChildren(t, k, m1, s1, f, info), DrawNode(t.children[k], m1, s1, f, info));
  }

  /** A disabled node that is checked adds nothing to the log. */
  lemma SkippedLog<M>(l: seq<Event<M>>, t: Node<M>, m: Mat, s: Vec3, f: Frame, info: map<M, MeshView>)
    requires Viewed(t, info) && ChecksEnabled(f.style) && !t.enabled
    ensures l == l + DrawNode(t, m, s, f, info)
  {
    assert DrawNode(t, m, s, f, info) == [];
    AppendNil(l);
  }

  /** The log of a node that is drawn: its push, its own mesh, its children, its pop. */
  lemma NodeLog<M>(l0: seq<Event<M>>, t: Node<M>, m: Mat, s: Vec3, f: Frame, info: map<M, MeshView>,
                   head: seq<Event<M>>, kids: seq<Event<M>>, l: seq<Event<M>>)
    requires Viewed(t, info) && !(ChecksEnabled(f.style) && !t.enabled)
    requires head == l0 + [Push(m)] + OwnEvents(t, Local(t, m, s), Mul(s, t.scale), f, info)
    requires kids == head + DrawChildren(t, |t.children|, Local(t, m, s), Mul(s, t.scale), f, info)
    requires l == kids + [Pop]
    ensures l == l0 + DrawNode(t, m, s, f, info)
  {
  }
}
