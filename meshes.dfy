/**
 * Vertices, render programs and meshes.
 *
 * Meshes are objects: several scene-graph nodes may reference the same mesh,
 * and `buildBuffer` writes `vboStart`/`vboCount` into the shared object, so
 * they are modelled as classes. The third-generation framework (project C)
 * has a richer mesh than the first two (projects A and B); each gets its own
 * class.
 */
module Meshes {
  import opened Common

  /** A project C vertex: position, colour and normal (10 floats in the VBO). */
  datatype Vertex = Vertex(pos: Vec3, color: Vec3, normal: Vec3)

  /** A project A/B vertex: position and colour (7 floats in the VBO). */
  datatype ColorVertex = ColorVertex(pos: Vec3, color: Vec3)

  /** The normal a project C vertex gets when none is given. */
  const DefaultNormal := Vec3(1.0, 0.0, 0.0)

  /** The project C `Vertex` constructor: a missing normal becomes (1, 0, 0). */
  function NewVertex(pos: Vec3, color: Vec3, normal: Option<Vec3>): (v: Vertex)
    ensures v.pos == pos && v.color == color
    ensures normal.Some? ==> v.normal == normal.value
    ensures normal.None? ==> v.normal == DefaultNormal
  {
    Vertex(pos, color, if normal.Some? then normal.value else DefaultNormal)
  }

  /**
   * A linked shader program. `attribIds` holds the names of its active
   * attributes and uniforms; the four role fields name the uniforms that
   * receive the projection, camera position, model and normal matrices
   * (an absent or empty name means the program has no such uniform).
   */
  datatype Program = Program(
    name: string,
    attribIds: set<string>,
    projectionMatrixAttrib: Option<string>,
    cameraPosAttrib: Option<string>,
    modelMatrixAttrib: Option<string>,
    normalMatrixAttrib: Option<string>)

  /** JavaScript truthiness of an optional string. */
  predicate Truthy(s: Option<string>) { s.Some? && s.value != "" }

  /**
   * `RenderProgram.verifyAttribs`: the first expected name the program does
   * not declare is reported.
   */
  function VerifyAttribs(p: Program, expected: seq<string>): (r: Result<()>)
    ensures r.Ok? <==> forall k :: 0 <= k < |expected| ==> expected[k] in p.attribIds
    ensures r.Err? ==>
      (exists k :: 0 <= k < |expected| && expected[k] !in p.attribIds &&
         (forall j :: 0 <= j < k ==> expected[j] in p.attribIds) &&
         r.msg == "Could not find location of " + expected[k] + " in shader " + p.name)
  {
    if expected == [] then Ok(())
    else if expected[0] !in p.attribIds then
      Err("Could not find location of " + expected[0] + " in shader " + p.name)
    else
      VerifyAttribs(p, expected[1..])
  }

  /** A project C mesh. */
  class Mesh {
    const name: string
    const renderType: int
    var verts: seq<Vertex>
    var renderProgram: Program
    /** The keys of `mesh.uniforms`, in insertion order. */
    var uniforms: seq<string>
    var vboStart: Option<nat>
    var vboCount: Option<nat>
    /**
     * The index list uploaded under `wireframeElementsIndex`; its length is
     * `wireframeElementsSize`. `None` while no index buffer exists.
     */
    var wireframe: Option<seq<nat>>

    constructor (renderType: int, name: string, renderProgram: Program)
      ensures this.renderType == renderType && this.name == name
      ensures this.renderProgram == renderProgram
      ensures verts == [] && uniforms == []
      ensures vboStart.None? && vboCount.None? && wireframe.None?
    {
      this.renderType := renderType;
      this.name := name;
      this.renderProgram := renderProgram;
      verts := [];
      uniforms := [];
      vboStart := None;
      vboCount := None;
      wireframe := None;
    }
  }

  /**
   * The checks of the project C `Mesh` constructor, in the order it makes
   * them: a falsy name, then a missing program, then a falsy render type.
   * `renderType` 0 is `POINTS`, which is falsy and therefore rejected.
   */
  function MeshArgsError(renderType: Option<int>, name: Option<string>, program: Option<Program>): (r: Option<string>)
    ensures r.None? <==> Truthy(name) && program.Some? && renderType.Some? && renderType.value != POINTS
    ensures !Truthy(name) ==> r == Some("Mesh missing name")
    ensures Truthy(name) && program.None? ==>
              r == Some("Mesh \"" + name.value + "\" missing render program")
    ensures renderType == Some(POINTS) ==> r.Some?
  {
    if !Truthy(name) then Some("Mesh missing name")
    else if program.None? then Some("Mesh \"" + name.value + "\" missing render program")
    else if renderType.None? || renderType.value == 0 then Some("Mesh \"" + name.value + "\" missing render type")
    else None
  }

  /** `new Mesh(renderType, name, renderProgram)` in project C, throwing included. */
  method NewMesh(renderType: Option<int>, name: Option<string>, program: Option<Program>) returns (r: Result<Mesh>)
    ensures r.Err? <==> MeshArgsError(renderType, name, program).Some?
    ensures r.Err? ==> r.msg == MeshArgsError(renderType, name, program).value
    ensures r.Ok? ==> fresh(r.value) && r.value.name == name.value &&
                      r.value.renderType == renderType.value && r.value.renderProgram == program.value &&
                      r.value.verts == [] && r.value.vboStart.None? && r.value.vboCount.None?
  {
    var err := MeshArgsError(renderType, name, program);
    if err.Some? {
      return Err(err.value);
    }
    var m := new Mesh(renderType.value, name.value, program.value);
    return Ok(m);
  }

  /** A project A/B mesh (project A's has no name; it is modelled as ""). */
  class SimpleMesh {
    const name: string
    const renderType: int
    var verts: seq<ColorVertex>
    var vboStart: Option<nat>
    var vboCount: Option<nat>

    constructor (renderType: int, name: string, verts: seq<ColorVertex>)
      ensures this.renderType == renderType && this.name == name && this.verts == verts
      ensures vboStart.None? && vboCount.None?
    {
      this.renderType := renderType;
      this.name := name;
      this.verts := verts;
      vboStart := None;
      vboCount := None;
    }
  }
}
