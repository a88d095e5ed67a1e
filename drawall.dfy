/**
 * `drawAll`: the whole canvas is set as the viewport and cleared, then
 * (projects B and C) each camera's viewport is resolved against the canvas
 * size and the scene graph is drawn once per camera. An unknown viewport
 * mode throws, after the cameras before it have been drawn. Project A has
 * no cameras: it draws the graph once from a fresh matrix.
 */
module DrawAll {
  import opened Common
  import opened Meshes
  import opened SceneTree
  import opened Render

  /** A camera's viewport: fractions of the canvas in `relative` mode, pixels in `absolute` mode. */
  datatype Viewport = Viewport(x: real, y: real, width: real, height: real, mode: string)

  /** `new Viewport()` in project B: relative, with zero width and height. */
  const DefaultViewportB := Viewport(0.0, 0.0, 0.0, 0.0, "relative")

  /** `new Viewport()` in project C: relative, the whole canvas. */
  const DefaultViewportC := Viewport(0.0, 0.0, 1.0, 1.0, "relative")

  /** The pixel rectangle passed to `gl.viewport`. */
  datatype Rect = Rect(x: real, y: real, width: real, height: real)

  function InvalidMode(mode: string): string
  {
    "Invalid viewport mode: " + mode
  }

  predicate KnownMode(mode: string)
  {
    mode == "absolute" || mode == "relative"
  }

  /** The viewport resolution at the top of the camera loop of `drawAll`. */
  function Resolve(v: Viewport, canvasWidth: real, canvasHeight: real): (r: Result<Rect>)
    ensures r.Err? <==> !KnownMode(v.mode)
    ensures r.Err? ==> r.msg == InvalidMode(v.mode)
    ensures v.mode == "absolute" ==> r == Ok(Rect(v.x, v.y, v.width, v.height))
  {
    if v.mode == "absolute" then Ok(Rect(v.x, v.y, v.width, v.height))
    else if v.mode == "relative" then
      Ok(Rect(v.x * canvasWidth, v.y * canvasHeight, v.width * canvasWidth, v.height * canvasHeight))
    else Err(InvalidMode(v.mode))
  }

  /**
   * A relative viewport whose fields are a pixel rectangle divided by the
   * canvas size resolves to that rectangle, as the absolute viewport with
   * the rectangle's own fields does.
   */
  lemma RelativeRoundTrip(r: Rect, canvasWidth: real, canvasHeight: real)
    requires canvasWidth > 0.0 && canvasHeight > 0.0
    ensures Resolve(Viewport(r.x / canvasWidth, r.y / canvasHeight, r.width / canvasWidth, r.height / canvasHeight, "relative"),
                    canvasWidth, canvasHeight) == Ok(r)
    ensures Resolve(Viewport(r.x, r.y, r.width, r.height, "absolute"), canvasWidth, canvasHeight) == Ok(r)
  {
    var v := Viewport(r.x / canvasWidth, r.y / canvasHeight, r.width / canvasWidth, r.height / canvasHeight, "relative");
    assert v.mode[0] != "absolute"[0];
    var q := Resolve(v, canvasWidth, canvasHeight).value;
    assert q.x == v.x * canvasWidth && q.y == v.y * canvasHeight;
    assert q.width == v.width * canvasWidth && q.height == v.height * canvasHeight;
    DivMul(r.x, canvasWidth);
    DivMul(r.y, canvasHeight);
    DivMul(r.width, canvasWidth);
    DivMul(r.height, canvasHeight);
    assert q == r;
  }

  lemma DivMul(a: real, b: real)
    requires b != 0.0
    ensures a / b * b == a
  {
  }

  /**
   * Project C's default viewport covers the whole canvas; project B's has
   * zero width and height, so a project B camera must be given a size.
   */
  lemma DefaultViewports(canvasWidth: real, canvasHeight: real)
    ensures Resolve(DefaultViewportC, canvasWidth, canvasHeight) == Ok(Rect(0.0, 0.0, canvasWidth, canvasHeight))
    ensures Resolve(DefaultViewportB, canvasWidth, canvasHeight) == Ok(Rect(0.0, 0.0, 0.0, 0.0))
  {
  }

  /** Example of `Resolve`: the right half of an 800 by 600 canvas. */
  lemma HalfCanvasExample()
    ensures Resolve(Viewport(0.5, 0.0, 0.5, 1.0, "relative"), 800.0, 600.0) == Ok(Rect(400.0, 0.0, 400.0, 600.0))
  {
  }

  /**
   * A camera: its viewport, the projection its `applyProjection` applies for
   * a viewport width and height (none when the camera has no
   * `applyProjection`), and its position, look direction and up vector.
   */
  datatype Camera = Camera(
    viewport: Viewport,
    applyProjection: Option<(real, real) -> seq<Op>>,
    pos: Vec3,
    lookDir: Vec3,
    up: Vec3)

  /** The projection set up for a camera: its projection, then `lookAt(pos, pos + lookDir, up)`. */
  function CameraMatrix(c: Camera, r: Rect): Mat
  {
    (if c.applyProjection.Some? then c.applyProjection.value(r.width, r.height) else []) +
    [LookAt(c.pos, Vec3(c.pos.x + c.lookDir.x, c.pos.y + c.lookDir.y, c.pos.z + c.lookDir.z), c.up)]
  }

  /**
   * The frame and starting matrix of one camera's traversal. Project C
   * starts from a fresh model matrix and passes the camera's matrix and
   * position down as the projection; project B draws straight from the
   * camera's matrix.
   */
  function CameraFrame(c: Camera, r: Rect, style: Style, globals: seq<string>, wireframe: bool): Frame
  {
    if style.Shaded? then Frame(style, globals, wireframe, CameraMatrix(c, r), c.pos)
    else Frame(style, globals, wireframe, [], Origin)
  }

  function StartMatrix(c: Camera, r: Rect, style: Style): Mat
  {
    if style.Shaded? then [] else CameraMatrix(c, r)
  }

  function CameraEvents<M>(c: Camera, r: Rect, root: Node<M>, style: Style, globals: seq<string>, wireframe: bool,
                           info: map<M, MeshView>): seq<Event<M>>
    requires Viewed(root, info)
  {
    [SetViewport(r.x, r.y, r.width, r.height)] +
      DrawNode(root, StartMatrix(c, r, style), UnitScale, CameraFrame(c, r, style, globals, wireframe), info)
  }

  /** The calls made for the first `k` cameras, and what was thrown, if anything. */
  datatype Outcome<M> = Outcome(events: seq<Event<M>>, thrown: Option<string>)

  function Cameras<M>(cs: seq<Camera>, k: nat, canvasWidth: nat, canvasHeight: nat, root: Node<M>, style: Style,
                      globals: seq<string>, wireframe: bool, info: map<M, MeshView>): Outcome<M>
    requires k <= |cs| && Viewed(root, info)
  {
    if k == 0 then Outcome([], None)
    else
      var prev := Cameras(cs, k - 1, canvasWidth, canvasHeight, root, style, globals, wireframe, info);
      if prev.thrown.Some? then prev
      else
        match Resolve(cs[k - 1].viewport, canvasWidth as real, canvasHeight as real)
        case Err(e) => Outcome(prev.events, Some(e))
        case Ok(r) => Outcome(prev.events + CameraEvents(cs[k - 1], r, root, style, globals, wireframe, info), None)
  }

  /**
   * `drawAll` throws exactly when some camera has an unknown viewport mode,
   * and then it throws the message for the first such camera.
   */
  lemma {:induction false} ThrowsAtFirstInvalid<M>(cs: seq<Camera>, k: nat, canvasWidth: nat, canvasHeight: nat, root: Node<M>,
                                                  style: Style, globals: seq<string>, wireframe: bool, info: map<M, MeshView>)
    requires k <= |cs| && Viewed(root, info)
    ensures var o := Cameras(cs, k, canvasWidth, canvasHeight, root, style, globals, wireframe, info);
            (o.thrown.None? <==> forall i :: 0 <= i < k ==> KnownMode(cs[i].viewport.mode)) &&
            (o.thrown.Some? ==> exists i :: 0 <= i < k && !KnownMode(cs[i].viewport.mode) &&
                                  (forall j :: 0 <= j < i ==> KnownMode(cs[j].viewport.mode)) &&
                                  o.thrown.value == InvalidMode(cs[i].viewport.mode))
  {
    if k > 0 {
      ThrowsAtFirstInvalid(cs, k - 1, canvasWidth, canvasHeight, root, style, globals, wireframe, info);
      ThrownStep(cs, k, canvasWidth, canvasHeight, root, style, globals, wireframe, info);
      var prev := Cameras(cs, k - 1, canvasWidth, canvasHeight, root, style, globals, wireframe, info);
      if prev.thrown.None? && !KnownMode(cs[k - 1].viewport.mode) {
        assert forall j :: 0 <= j < k - 1 ==> KnownMode(cs[j].viewport.mode);
      }
    }
  }

  /** One camera more: what was thrown stays, else the camera throws exactly when its mode is unknown. */
  lemma ThrownStep<M>(cs: seq<Camera>, k: nat, canvasWidth: nat, canvasHeight: nat, root: Node<M>,
                      style: Style, globals: seq<string>, wireframe: bool, info: map<M, MeshView>)
    requires 0 < k <= |cs| && Viewed(root, info)
    ensures var prev := Cameras(cs, k - 1, canvasWidth, canvasHeight, root, style, globals, wireframe, info);
            Cameras(cs, k, canvasWidth, canvasHeight, root, style, globals, wireframe, info).thrown ==
              if prev.thrown.Some? then prev.thrown
              else if KnownMode(cs[k - 1].viewport.mode) then None
              else Some(InvalidMode(cs[k - 1].viewport.mode))
  {
  }

  /** Once a camera has thrown, no later camera changes the outcome. */
  lemma {:induction false} ThrownStays<M>(cs: seq<Camera>, k: nat, n: nat, canvasWidth: nat, canvasHeight: nat, root: Node<M>,
                                          style: Style, globals: seq<string>, wireframe: bool, info: map<M, MeshView>)
    requires k <= n <= |cs| && Viewed(root, info)
    requires Cameras(cs, k, canvasWidth, canvasHeight, root, style, globals, wireframe, info).thrown.Some?
    ensures Cameras(cs, n, canvasWidth, canvasHeight, root, style, globals, wireframe, info) ==
            Cameras(cs, k, canvasWidth, canvasHeight, root, style, globals, wireframe, info)
  {
    if n > k {
      ThrownStays(cs, k, n - 1, canvasWidth, canvasHeight, root, style, globals, wireframe, info);
    }
  }

  /** The calls of a `drawAll` with cameras: the full-canvas viewport and clear, then each camera in turn. */
  function DrawAllEvents<M>(cs: seq<Camera>, canvasWidth: nat, canvasHeight: nat, root: Node<M>, style: Style,
                            globals: seq<string>, wireframe: bool, info: map<M, MeshView>): Outcome<M>
    requires Viewed(root, info)
  {
    var o := Cameras(cs, |cs|, canvasWidth, canvasHeight, root, style, globals, wireframe, info);
    Outcome([SetViewport(0.0, 0.0, canvasWidth as real, canvasHeight as real), Clear] + o.events, o.thrown)
  }

  /** One turn of the camera loop, as a log step. */
  lemma CameraStep<M>(base: seq<Event<M>>, cs: seq<Camera>, k: nat, canvasWidth: nat, canvasHeight: nat, root: Node<M>,
                      style: Style, globals: seq<string>, wireframe: bool, info: map<M, MeshView>, r: Rect, l: seq<Event<M>>)
    requires k < |cs| && Viewed(root, info)
    requires Cameras(cs, k, canvasWidth, canvasHeight, root, style, globals, wireframe, info).thrown.None?
    requires Resolve(cs[k].viewport, canvasWidth as real, canvasHeight as real) == Ok(r)
    requires l == base + Cameras(cs, k, canvasWidth, canvasHeight, root, style, globals, wireframe, info).events +
                 CameraEvents(cs[k], r, root, style, globals, wireframe, info)
    ensures Cameras(cs, k + 1, canvasWidth, canvasHeight, root, style, globals, wireframe, info).thrown.None?
    ensures l == base + Cameras(cs, k + 1, canvasWidth, canvasHeight, root, style, globals, wireframe, info).events
  {
    var prev := Cameras(cs, k, canvasWidth, canvasHeight, root, style, globals, wireframe, info);
    AppendAssoc(base, prev.events, CameraEvents(cs[k], r, root, style, globals, wireframe, info));
  }

  /**
   * One turn of project C's camera loop: the camera's viewport is resolved
   * (an unknown mode throws), set, and the graph drawn from a fresh matrix.
   */
  method CameraTurnShaded(gl: Renderer<Mesh>, cs: seq<Camera>, k: nat, canvasWidth: nat, canvasHeight: nat, root: Node<Mesh>,
                          globals: seq<string>, wireframe: bool, ghost base: seq<Event<Mesh>>, ghost scene: set<Mesh>)
    returns (thrown: Option<string>)
    requires k < |cs| && Viewed(root, View(scene))
    requires Cameras(cs, k, canvasWidth, canvasHeight, root, Shaded, globals, wireframe, View(scene)).thrown.None?
    requires gl.log == base + Cameras(cs, k, canvasWidth, canvasHeight, root, Shaded, globals, wireframe, View(scene)).events
    modifies gl
    ensures gl.stack == old(gl.stack)
    ensures var o := Cameras(cs, k + 1, canvasWidth, canvasHeight, root, Shaded, globals, wireframe, View(scene));
            thrown == o.thrown && gl.log == base + o.events
  {
    var c := cs[k];
    var res := Resolve(c.viewport, canvasWidth as real, canvasHeight as real);
    if res.Err? {
      return Some(res.msg);
    }
    var r := res.value;
    gl.Emit(SetViewport(r.x, r.y, r.width, r.height));
    var f := Frame(Shaded, globals, wireframe, CameraMatrix(c, r), c.pos);
    assert f == CameraFrame(c, r, Shaded, globals, wireframe);
    var _ := DrawNodeShaded(gl, [], root, UnitScale, f, scene);
    AppendAssoc(old(gl.log), [SetViewport(r.x, r.y, r.width, r.height)], DrawNode(root, [], UnitScale, f, View(scene)));
    CameraStep(base, cs, k, canvasWidth, canvasHeight, root, Shaded, globals, wireframe, View(scene), r, gl.log);
    return None;
  }

  /**
   * One turn of project B's camera loop: the camera's viewport is resolved
   * (an unknown mode throws), set, and the graph drawn from the camera's matrix.
   */
  method CameraTurnPlain(gl: Renderer<SimpleMesh>, cs: seq<Camera>, k: nat, canvasWidth: nat, canvasHeight: nat,
                         root: Node<SimpleMesh>, ghost base: seq<Event<SimpleMesh>>, ghost scene: set<SimpleMesh>)
    returns (thrown: Option<string>)
    requires k < |cs| && Viewed(root, SimpleView(scene))
    requires Cameras(cs, k, canvasWidth, canvasHeight, root, Plain(true), [], false, SimpleView(scene)).thrown.None?
    requires gl.log == base + Cameras(cs, k, canvasWidth, canvasHeight, root, Plain(true), [], false, SimpleView(scene)).events
    modifies gl
    ensures gl.stack == old(gl.stack)
    ensures var o := Cameras(cs, k + 1, canvasWidth, canvasHeight, root, Plain(true), [], false, SimpleView(scene));
            thrown == o.thrown && gl.log == base + o.events
  {
    var c := cs[k];
    var res := Resolve(c.viewport, canvasWidth as real, canvasHeight as real);
    if res.Err? {
      return Some(res.msg);
    }
    var r := res.value;
    gl.Emit(SetViewport(r.x, r.y, r.width, r.height));
    var f := Frame(Plain(true), [], false, [], Origin);
    var m := CameraMatrix(c, r);
    var _ := DrawNodePlain(gl, m, root, UnitScale, f, scene);
    AppendAssoc(old(gl.log), [SetViewport(r.x, r.y, r.width, r.height)], DrawNode(root, m, UnitScale, f, SimpleView(scene)));
    CameraStep(base, cs, k, canvasWidth, canvasHeight, root, Plain(true), [], false, SimpleView(scene), r, gl.log);
    return None;
  }

  /** Project C `drawAll`: one shaded traversal per camera, until a camera throws. */
  method DrawAllShaded(gl: Renderer<Mesh>, cs: seq<Camera>, canvasWidth: nat, canvasHeight: nat, root: Node<Mesh>,
                       globals: seq<string>, wireframe: bool, ghost scene: set<Mesh>) returns (thrown: Option<string>)
    requires Viewed(root, View(scene))
    modifies gl
    ensures gl.stack == old(gl.stack)
    ensures var o := DrawAllEvents(cs, canvasWidth, canvasHeight, root, Shaded, globals, wireframe, View(scene));
            thrown == o.thrown && gl.log == old(gl.log) + o.events
  {
    gl.Emit(SetViewport(0.0, 0.0, canvasWidth as real, canvasHeight as real));
    gl.Emit(Clear);
    ghost var base := gl.log;
    thrown := None;
    var k := 0;
    while k < |cs| && thrown.None?
      invariant k <= |cs| && gl.stack == old(gl.stack)
      invariant thrown == Cameras(cs, k, canvasWidth, canvasHeight, root, Shaded, globals, wireframe, View(scene)).thrown
      invariant gl.log == base + Cameras(cs, k, canvasWidth, canvasHeight, root, Shaded, globals, wireframe, View(scene)).events
    {
      thrown := CameraTurnShaded(gl, cs, k, canvasWidth, canvasHeight, root, globals, wireframe, base, scene);
      k := k + 1;
    }
    if thrown.Some? {
      ThrownStays(cs, k, |cs|, canvasWidth, canvasHeight, root, Shaded, globals, wireframe, View(scene));
    }
    ghost var head := [SetViewport(0.0, 0.0, canvasWidth as real, canvasHeight as real), Clear];
    assert base == old(gl.log) + head;
    AppendAssoc(old(gl.log), head, Cameras(cs, |cs|, canvasWidth, canvasHeight, root, Shaded, globals, wireframe, View(scene)).events);
  }

  /** Project B `drawAll`: one traversal per camera from the camera's matrix, until a camera throws. */
  method DrawAllPlain(gl: Renderer<SimpleMesh>, cs: seq<Camera>, canvasWidth: nat, canvasHeight: nat, root: Node<SimpleMesh>,
                      ghost scene: set<SimpleMesh>) returns (thrown: Option<string>)
    requires Viewed(root, SimpleView(scene))
    modifies gl
    ensures gl.stack == old(gl.stack)
    ensures var o := DrawAllEvents(cs, canvasWidth, canvasHeight, root, Plain(true), [], false, SimpleView(scene));
            thrown == o.thrown && gl.log == old(gl.log) + o.events
  {
    gl.Emit(SetViewport(0.0, 0.0, canvasWidth as real, canvasHeight as real));
    gl.Emit(Clear);
    ghost var base := gl.log;
    thrown := None;
    var k := 0;
    while k < |cs| && thrown.None?
      invariant k <= |cs| && gl.stack == old(gl.stack)
      invariant thrown == Cameras(cs, k, canvasWidth, canvasHeight, root, Plain(true), [], false, SimpleView(scene)).thrown
      invariant gl.log == base + Cameras(cs, k, canvasWidth, canvasHeight, root, Plain(true), [], false, SimpleView(scene)).events
    {
      thrown := CameraTurnPlain(gl, cs, k, canvasWidth, canvasHeight, root, base, scene);
      k := k + 1;
    }
    if thrown.Some? {
      ThrownStays(cs, k, |cs|, canvasWidth, canvasHeight, root, Plain(true), [], false, SimpleView(scene));
    }
    ghost var head := [SetViewport(0.0, 0.0, canvasWidth as real, canvasHeight as real), Clear];
    assert base == old(gl.log) + head;
    AppendAssoc(old(gl.log), head, Cameras(cs, |cs|, canvasWidth, canvasHeight, root, Plain(true), [], false, SimpleView(scene)).events);
  }

  /**
   * Project A `drawAll` (both frameworks): the whole canvas, cleared, and one
   * traversal from a fresh matrix at unit scale.
   */
  method DrawAllA(gl: Renderer<SimpleMesh>, canvasWidth: nat, canvasHeight: nat, root: Node<SimpleMesh>, checksEnabled: bool,
                  ghost scene: set<SimpleMesh>)
    requires Viewed(root, SimpleView(scene))
    modifies gl
    ensures gl.stack == old(gl.stack)
    ensures gl.log == old(gl.log) + [SetViewport(0.0, 0.0, canvasWidth as real, canvasHeight as real), Clear] +
                      DrawNode(root, [], UnitScale, Frame(Plain(checksEnabled), [], false, [], Origin), SimpleView(scene))
  {
    gl.Emit(SetViewport(0.0, 0.0, canvasWidth as real, canvasHeight as real));
    gl.Emit(Clear);
    var _ := DrawNodePlain(gl, [], root, UnitScale, Frame(Plain(checksEnabled), [], false, [], Origin), scene);
  }
}
