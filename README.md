# Scene-graph framework of the three WebGL projects, modelled in Dafny

The repository holds three course projects (A, B and C). Each ships a small
WebGL scene-graph framework (`SceneGraph.js`) and a main file that builds and
animates a scene with it. Project A exists in two versions with slightly
different frameworks.

This project models the following:

- **Nodes and the name registry.** `SceneGraphNode` objects register their
  names in `Animation.nodes`, and a duplicate name throws. In projects B and C
  the constructor pushes the new node into its parent before the name check
  can throw.
- **Meshes and `buildBuffer`.** A pre-order walk flattens the meshes' vertices
  into one shared buffer. Projects B and C place a shared mesh once; project A
  appends it once per reference, and the last write wins.
- **Wireframes and normals.** Project C builds wireframe index lists and
  computes flat and smooth normals.
- **Drawing.** `drawNode` is the pre-order draw walk with its matrix stack,
  program selection and uniform binders. `drawAll` draws once per camera
  viewport.
- **Graph exports.** These are the DOT export, the name graph, and
  `getNodePath` with the scale part of `getTransform`.
- **The main files.** These cover the mesh builders, the scenes
  `initSceneGraph` builds, project C's materials, the keyboard and mouse
  handlers, and the per-frame animation. Project A's `animate` is split into
  the pose it computes from the clocks and sliders (`Animate.PoseA`) and the
  writes of that pose into the arena (`Animate.FrameNodesA`). The lemmas about
  one frame assume only that the animated names are registered and look up
  distinct nodes, which `Animate.NamesApart` derives for any well-formed
  registry.

Node objects live in an arena (`Registry.Scene`), so a node is its index.
`parent` and `children` are indices, and constructors and handlers update the
arena in place. Traversals work on a snapshot of the tree (`SceneTree.Node`),
in which mesh references stay object references. A `Matrix4` is the list of
operations applied to it, and GL calls are recorded in a log
(`Render.Renderer`).

Floating-point results the model does not compute are parameters:
trigonometry, quaternion maths, `Vec3.toString`, normalisation and
`HSVtoRGB`. The same goes for the values the page reads from the DOM, the
clock and `Math.random`. Reals stand in for JavaScript numbers.

In project C, `initMaterials` stores its material binders in the node's own
`uniforms` property. `drawNode`, however, calls the binders of `node.mesh.uniforms`.
The model keeps both as written, so the material binders stored by
`initMaterials` are not among those `drawNode` calls.

## Model

| member | source | states |
|---|---|---|
| Animate.Run | PA/AllanEvan_ProjA/ProjectA/ProjectA.js:74-80 | after a run of frames the remembered tick time is the last frame's `Date.now()`, and an empty run changes neither clock nor tick |
| Animate.RunTracksTime | PA/AllanEvan_ProjA/ProjectA/ProjectA.js:74-120 | a clock whose checkbox stays on keeps a constant offset from the last tick time, and one whose checkbox stays off never moves |
| Animate.Clocks.constructor | PA/AllanEvan_ProjA/ProjectA/ProjectA.js:50-51 | both clocks start at the start-up time and the tick at the load time; the box step starts at 0, a placeholder for the source's `undefined`, which every box tick overwrites before it is read |
| Animate.Clocks.TickA | PA/AllanEvan_ProjA/ProjectA/ProjectA.js:74-80 | each clock advances by the elapsed time only while its checkbox is set; the tick time becomes the frame's time |
| Animate.Clocks.TickB | PB/AllanEvan_ProjB/ProjectB/ProjectB.js:132-135 | as project A, and the box step is the elapsed time, or 0 while the boxes are paused |
| Animate.Clocks.TickC | PC/AllanEvan_ProjC/ProjectC/ProjectC.js:220-260 | both clocks always advance by the elapsed time and the box step is the elapsed time |
| Animate.ShowB | PB/AllanEvan_ProjB/ProjectB/ProjectB.js:83-166 | exactly the `l1`, `house`, `plane` and `buildings` nodes get their checkbox's `enabled` value; nothing else in the scene changes |
| Animate.NudgePrecedence | PA/AllanEvan_ProjA/ProjectA/ProjectA.js:93-103 | the held arm keys move the drag point by 0.01 per frame, up taking precedence over down and left over right |
| Animate.NudgeDragA | PA/AllanEvan_ProjA/ProjectA/ProjectA.js:94-104 | the drag point moves by the nudge of the held arm keys; whether a drag is in progress and the recorded drags do not change |
| Animate.WavePeriod | PA/AllanEvan_ProjA/ProjectA/ProjectA.js:88-92 | each cylinder's wave period is positive and half that of the cylinder it hangs from, starting at 1000 for `l1` |
| Animate.Mod360 | PA/AllanEvan_ProjA/ProjectA/ProjectA.js:112-118 | JavaScript's `% 360` keeps the sign of its operand: a non-negative angle lands in [0, 360) and a non-positive one in (-360, 0] |
| Animate.Mod360Periodic | PA/AllanEvan_ProjA/ProjectA/ProjectA.js:112-118 | adding a full turn to a non-negative angle does not change its `% 360` |
| Animate.HouseSpin | PA/AllanEvan_ProjA/ProjectA/ProjectA.js:111-118 | for a non-negative box time, house `k`'s `y` angle `(boxTime / (2(k-1))) % 360` lies in [0, 360) |
| Animate.HouseSpinPeriod | PA/AllanEvan_ProjA/ProjectA/ProjectA.js:111-118 | house `k` comes back to the same `y` angle every `720(k-1)` milliseconds of box time |
| Animate.NamesApart | PA/AllanEvan_ProjA/ProjectA/SceneGraph.js:96-99 | in a well-formed registry, different names look up different nodes, so writes through different names never land on the same node |
| Animate.ShownAAt | PA/AllanEvan_ProjA/ProjectA/ProjectA.js:72-73 | `l1` takes the arm checkbox and `house` the box checkbox as `enabled`; no other node changes |
| Animate.ArmWavedAt | PA/AllanEvan_ProjA/ProjectA/ProjectA.js:86-92 | `l1` to `l5` get exactly the pose's five arm angles, in order, as Euler rotations, and no other node changes |
| Animate.HousesSpunAt | PA/AllanEvan_ProjA/ProjectA/ProjectA.js:111-118 | `house2` to `house5` get the pose's four spin angles as `y`, keep their `x` and `z` angles, and no other node changes |
| Animate.HousesMovedAt | PA/AllanEvan_ProjA/ProjectA/ProjectA.js:109-118 | `house` gets the pose's circling position and rotation, `house2` to `house5` the pose's spins, and no other node changes |
| Animate.FrameArmRootA | PA/AllanEvan_ProjA/ProjectA/ProjectA.js:72-107 | after one frame `l1` is shown per its checkbox, has the pose's first arm angle, and sits at the drag point at its old depth |
| Animate.FrameArmA | PA/AllanEvan_ProjA/ProjectA/ProjectA.js:86-92 | after one frame `l2` to `l5` differ from before only in their rotation, which is the pose's arm angle for that cylinder |
| Animate.FrameHouseA | PA/AllanEvan_ProjA/ProjectA/ProjectA.js:72-110 | after one frame `house` is shown per its checkbox and has the pose's circling position and rotation |
| Animate.FrameSpinA | PA/AllanEvan_ProjA/ProjectA/ProjectA.js:111-118 | after one frame `house2` to `house5` have the pose's spin angle as `y` and their old `x`, `z` angles, nothing else changed |
| Animate.FrameOthersA | PA/AllanEvan_ProjA/ProjectA/ProjectA.js:58-121 | one frame of `animate` leaves every node not registered under an animated name untouched |
| Animate.WaveArmA | PA/AllanEvan_ProjA/ProjectA/ProjectA.js:86-92 | the five cylinder rotations are written in source order, giving exactly the arena `ArmWaved` describes |
| Animate.SpinHouseA | PA/AllanEvan_ProjA/ProjectA/ProjectA.js:111-112 | only the `y` angle of the house's own rotation object changes, in place |
| Animate.MoveHousesA | PA/AllanEvan_ProjA/ProjectA/ProjectA.js:109-118 | `house` moves and turns and the other houses spin in source order, giving exactly the arena `HousesMoved` describes |
| Animate.PoseAAt | PA/AllanEvan_ProjA/ProjectA/ProjectA.js:86-118 | the frame's pose holds cylinder `k`'s wave angles for the arm time, house `k`'s spin for the box time, and the circling position and rotation of `house` |
| Animate.ShowA | PA/AllanEvan_ProjA/ProjectA/ProjectA.js:72-73 | the checkboxes are written to `l1` and `house`, giving exactly the arena `ShownA` describes, and the names `animate` writes through stay registered |
| Animate.MoveA | PA/AllanEvan_ProjA/ProjectA/ProjectA.js:86-118 | the arm is waved, the drag point nudged, `l1` moved to it and the houses moved and spun in source order, giving exactly the arena `MovedA` describes |
| Animate.AnimateA | PA/AllanEvan_ProjA/ProjectA/ProjectA.js:58-121 | one frame of project A: clocks as `TickA`, the drag point nudged, and the arena exactly `FrameNodesA` of the old arena, the new drag point and the pose `PoseA` computes from the new arm and box times; the `Frame*A` lemmas say what that arena holds node by node |
| Animate.AnimatedRegisteredA | PA/AllanEvan_ProjA/ProjectA/ProjectA.js:129-171 | every name `animate` writes through is registered by `initSceneGraph` below index 26, `l1` at 1 and house `k` at `20 + k` |
| Animate.InitialSceneAnimatableA | PA/AllanEvan_ProjA/ProjectA/ProjectA.js:129-171 | the scene `initSceneGraph` builds registers every name `animate` writes through, gives `l1` a position and the houses Euler rotations |
| BufferBuild.VertexFloats | PC/AllanEvan_ProjC/ProjectC/SceneGraph.js:613 | a project C vertex occupies 10 floats: position, 1.0, colour, normal |
| BufferBuild.ColorVertexFloats | PB/AllanEvan_ProjB/ProjectB/SceneGraph.js:416 | a project A/B vertex occupies 7 floats: position, 1.0, colour |
| BufferBuild.VertsEncode | PC/AllanEvan_ProjC/ProjectC/SceneGraph.js:610-614 | project C writes exactly 10 floats per vertex and projects A/B exactly 7, so a mesh's region is the vertex format's width times its vertex count |
| BufferBuild.FloatsLength | PA/AllanEvan_ProjA/ProjectA/SceneGraph.js:176-189 | the floats of a sequence of meshes number the width times their total vertex count |
| BufferBuild.WholeVertices | PC/AllanEvan_ProjC/ProjectC/SceneGraph.js:609-615 | appending whole vertices keeps the buffer a whole number of vertices, so `length / primsPerVertex` is exact and `vboCount` is the number appended |
| BufferBuild.NewSlot | PC/AllanEvan_ProjC/ProjectC/SceneGraph.js:609-616 | placing a mesh sets its `vboStart` and `vboCount`, and its wireframe to the one built for its type, or leaves the old one when none is built |
| BufferBuild.ApplyLayoutPlaced | PC/AllanEvan_ProjC/ProjectC/SceneGraph.js:602-626 | after appending, the meshes with a `vboStart` are those that had one plus those appended |
| BufferBuild.ApplyLayoutAt | PC/AllanEvan_ProjC/ProjectC/SceneGraph.js:609-616 | in a layout with no repeats, the j-th mesh starts right after the vertices of the meshes before it |
| BufferBuild.ApplyLayoutLast | PA/AllanEvan_ProjA/ProjectA/SceneGraph.js:176-183 | a mesh appended several times keeps the slot of its last append |
| BufferBuild.RegionsDisjoint | PC/AllanEvan_ProjC/ProjectC/SceneGraph.js:602-626 | the region of an earlier appended mesh ends before that of a later one starts: the regions are disjoint and contiguous |
| BufferBuild.PushVerts | PC/AllanEvan_ProjC/ProjectC/SceneGraph.js:610-614 | the vertex loop appends exactly the 10-float encoding of the mesh's vertices |
| BufferBuild.SetRange | PC/AllanEvan_ProjC/ProjectC/SceneGraph.js:609 | writing `vboStart`/`vboCount` changes that one mesh's slot and no vertex list or shading state |
| BufferBuild.RebuildWireframe | PC/AllanEvan_ProjC/ProjectC/SceneGraph.js:616 | rebuilding the wireframe changes only that mesh's wireframe, to the list built for its type, or leaves it when none is built |
| BufferBuild.PlaceMesh | PC/AllanEvan_ProjC/ProjectC/SceneGraph.js:608-617 | placing one mesh appends its 10-float vertices and gives it the slot that starts at the old buffer end, with its vertex count and wireframe |
| BufferBuild.BuildOwn | PC/AllanEvan_ProjC/ProjectC/SceneGraph.js:608-617 | a node's own mesh is appended exactly when its `vboStart` is unset |
| BufferBuild.BuildBuffer | PC/AllanEvan_ProjC/ProjectC/SceneGraph.js:602-626 | project C's `buildBuffer` appends, in pre-order with children in array order and no `enabled` check, exactly the meshes not yet placed, each once, and lays them out one after another from the buffer's end; vertex lists and shading are untouched |
| BufferBuild.PushColorVerts | PB/AllanEvan_ProjB/ProjectB/SceneGraph.js:412-417 | the vertex loop appends exactly the 7-float encoding of the mesh's vertices |
| BufferBuild.PlaceSimpleMesh | PA/AllanEvan_ProjA/ProjectA/SceneGraph.js:177-184 | placing one mesh appends its 7-float vertices and gives it the slot starting at the old buffer end with its vertex count |
| BufferBuild.SetSimpleRange | PA/AllanEvan_ProjA/ProjectA/SceneGraph.js:177-184 | writing `vboStart`/`vboCount` changes that one mesh's slot and no vertex list |
| BufferBuild.BuildSimpleOwn | PB/AllanEvan_ProjB/ProjectB/SceneGraph.js:410-419 | a node's own mesh is appended exactly when its `vboStart` is unset |
| BufferBuild.BuildSimpleBuffer | PB/AllanEvan_ProjB/ProjectB/SceneGraph.js:404-427 | project B's guarded `buildBuffer` appends each mesh not yet placed once, in pre-order, 7 floats per vertex, laid out from the buffer's end |
| BufferBuild.BuildOwnUnguarded | PA/AllanEvan_ProjA/ProjectA/SceneGraph.js:176-184 | project A places a node's own mesh whether or not it was placed before |
| BufferBuild.BuildBufferUnguarded | PA/AllanEvan_ProjA/ProjectA/SceneGraph.js:170-193 | project A's `buildBuffer` (both versions) appends every mesh occurrence of the pre-order walk, shared meshes once per reference, and lays out that sequence |
| BufferBuild.GuardedAppendsEachOnce | PB/AllanEvan_ProjB/ProjectB/SceneGraph.js:404-427 | the guarded walk appends exactly the reachable meshes not placed before, each exactly once, and the buffer grows by the width times their total vertex count |
| BufferBuild.SecondBuildAppendsNothing | PC/AllanEvan_ProjC/ProjectC/SceneGraph.js:602-626 | a second guarded build over the same graph appends nothing and changes no mesh |
| BufferBuild.GuardedLayout | PC/AllanEvan_ProjC/ProjectC/SceneGraph.js:609-615 | in the guarded walk the j-th appended mesh gets `vboStart` = base + vertices appended before it and `vboCount` = its vertex count, so consecutive regions are adjacent |
| BufferBuild.UnguardedLastWins | PA/AllanEvan_ProjA/ProjectA/SceneGraph.js:170-193 | in the unguarded walk a shared mesh ends with the start of its last pre-order occurrence and its own vertex count |
| BufferBuild.UnguardedLength | PA/ProjectA_eah8003/ProjectA/SceneGraph.js:123-146 | the unguarded buffer holds the width times the vertices of every occurrence, shared meshes counted each time and disabled nodes included |
| Builders.CircleCShape | PC/AllanEvan_ProjC/ProjectC/ProjectC.js:461-476 | a project C circle after `k` turns has `k + 1` vertices: the white centre, then rim step `j - 1` at vertex `j` with its (possibly inverted) hue, every vertex with normal (0, 0, 1) |
| Builders.CircleVertsC | PC/AllanEvan_ProjC/ProjectC/ProjectC.js:461-476 | the loop over steps 0 to n pushes exactly the circle of `n + 1` turns after the centre, `n + 2` vertices in all |
| Builders.InitCircleMeshC | PC/AllanEvan_ProjC/ProjectC/ProjectC.js:459-479 | project C's circle mesh is a fresh phong `TRIANGLE_FAN` named "Circle" holding that circle, not yet placed in the VBO |
| Builders.CircleShape | PB/AllanEvan_ProjB/ProjectB/ProjectB.js:309-317 | a project A/B circle after `k` turns is the white centre, then rim step `j - 1` at vertex `j` with its hue |
| Builders.CircleVerts | PB/AllanEvan_ProjB/ProjectB/ProjectB.js:309-317 | the loop over steps 0 to n yields the centre and `n + 1` rim vertices |
| Builders.InitCircleMeshB | PB/AllanEvan_ProjB/ProjectB/ProjectB.js:307-320 | project B's circle mesh is a fresh `TRIANGLE_FAN` named "Circle" holding that circle |
| Builders.InitCircleMeshA | PA/AllanEvan_ProjA/ProjectA/ProjectA.js:173-188 | project A's circle mesh is a fresh unnamed mesh whose render type is set to `TRIANGLE_FAN`, holding the same circle |
| Builders.CylinderSideCShape | PC/AllanEvan_ProjC/ProjectC/ProjectC.js:486-502 | project C's side over `n` segments has `6n` vertices, whole triangles, and each segment's two triangles share their diagonal (vertices `6q+1`/`6q+4` and `6q+2`/`6q+3` agree) |
| Builders.CylinderSideVertsC | PC/AllanEvan_ProjC/ProjectC/ProjectC.js:486-502 | the loop over steps 0 to n, pushing nothing at step 0, yields that side: `6n` vertices |
| Builders.InitCylinderSideMeshC | PC/AllanEvan_ProjC/ProjectC/ProjectC.js:484-505 | project C's side mesh is a fresh phong `TRIANGLES` mesh named "CyllinderSide" holding that side |
| Builders.CylinderSideShape | PB/AllanEvan_ProjB/ProjectB/ProjectB.js:327-335 | the project A/B side after `k` steps alternates a rim vertex and the half-radius vertex above it at height 1, both with the step's hue |
| Builders.CylinderSideVerts | PB/AllanEvan_ProjB/ProjectB/ProjectB.js:327-335 | the loop over steps 0 to n yields `2(n + 1)` vertices of that strip |
| Builders.InitCylinderSideMeshB | PB/AllanEvan_ProjB/ProjectB/ProjectB.js:325-338 | project B's side mesh is a fresh `TRIANGLE_STRIP` named "CyllinderSide" holding that strip |
| Builders.InitCylinderSideMeshA | PA/AllanEvan_ProjA/ProjectA/ProjectA.js:190-205 | project A's side mesh is a fresh unnamed mesh whose render type is set to `TRIANGLE_STRIP`, holding the same strip |
| Controls.CameraBindingRoundTrip | PC/AllanEvan_ProjC/ProjectC/ProjectC.js:1156-1191 | in projects B and C each of the ten handled key codes selects exactly one movement or look flag, and each flag is selected by exactly one code |
| Controls.ArmBindingCodes | PA/AllanEvan_ProjA/ProjectA/ProjectA.js:381-402 | in project A a code selects an arm flag exactly when it is that flag's letter key or arrow key (KeyA/ArrowLeft, KeyD/ArrowRight, KeyS/ArrowDown, KeyW/ArrowUp) |
| Controls.KeyEventsTouchOneFlag | PB/AllanEvan_ProjB/ProjectB/ProjectB.js:1025-1097 | keydown raises and keyup lowers only the selected flag, every other flag keeps its value, and an unhandled code changes nothing |
| Controls.ReleaseUndoesPress | PB/AllanEvan_ProjB/ProjectB/ProjectB.js:1025-1097 | keyup after keydown of a key not held restores the flags, and repeating either event has no further effect |
| Controls.CameraKeys.constructor | PC/AllanEvan_ProjC/ProjectC/ProjectC.js:1156-1228 | no movement or look flag is raised at load |
| Controls.CameraKeys.KeyDown | PC/AllanEvan_ProjC/ProjectC/ProjectC.js:1156-1191 | `myKeyDown` raises the flag the code selects, if any |
| Controls.CameraKeys.KeyUp | PC/AllanEvan_ProjC/ProjectC/ProjectC.js:1193-1228 | `myKeyUp` lowers the flag the code selects, if any |
| Controls.ArmKeys.constructor | PA/AllanEvan_ProjA/ProjectA/ProjectA.js:381-425 | no arm flag is raised at load |
| Controls.ArmKeys.KeyDown | PA/AllanEvan_ProjA/ProjectA/ProjectA.js:381-402 | project A's `myKeyDown` raises the arm flag the code selects, if any |
| Controls.ArmKeys.KeyUp | PA/AllanEvan_ProjA/ProjectA/ProjectA.js:404-425 | project A's `myKeyUp` lowers the arm flag the code selects, if any |
| Controls.TranslateCalls | PC/AllanEvan_ProjC/ProjectC/ProjectC.js:310-332 | `translateCamera` makes at most three calls, all on the one camera it moves and all translations |
| Controls.RotateCalls | PC/AllanEvan_ProjC/ProjectC/ProjectC.js:337-351 | `rotateCamera` makes at most two calls, all on the one camera it turns and all rotations |
| Controls.TranslatePrecedence | PC/AllanEvan_ProjC/ProjectC/ProjectC.js:315-331 | per frame each axis gets at most one move, of `0.05 · elapsed / 15`: forward over back (with the lock-forward flag), left over right, up over down |
| Controls.TranslateCallsSplit | PC/AllanEvan_ProjC/ProjectC/ProjectC.js:315-331 | the calls are the forward/back call, then the sideways call, then the vertical call |
| Controls.TranslateAxis | PC/AllanEvan_ProjC/ProjectC/ProjectC.js:315-331 | each of the three `if`/`else if` pairs fills only its own axis |
| Controls.RotatePrecedence | PC/AllanEvan_ProjC/ProjectC/ProjectC.js:340-350 | per frame pitch gets at most one turn of half `elapsed / 15` degrees, look up over look down, and yaw at most one of `elapsed / 15`, look left over look right |
| Controls.PairSteps | PC/AllanEvan_ProjC/ProjectC/ProjectC.js:315-319 | an `if`/`else if` pair makes the call of the first raised flag of the pair, or none |
| Controls.OnAxisSteps | PC/AllanEvan_ProjC/ProjectC/ProjectC.js:315-331 | the calls of one pair fill only that pair's axis |
| Controls.MouseDrag.constructor | PC/AllanEvan_ProjC/ProjectC/ProjectC.js:3 | the drag starts at (0, 0), not dragging, with no rotation made |
| Controls.MouseDrag.Start | PC/AllanEvan_ProjC/ProjectC/ProjectC.js:74-75 | `main` moves the drag point to (0, -1) and changes nothing else |
| Controls.MouseDrag.Down | PC/AllanEvan_ProjC/ProjectC/ProjectC.js:1092-1102 | `myMouseDown` ignores a press outside [-1, 1]², and otherwise moves the drag point to the press and starts dragging |
| Controls.MouseDrag.Move | PC/AllanEvan_ProjC/ProjectC/ProjectC.js:1104-1113 | `myMouseMove` does nothing unless dragging, and otherwise rotates by the cursor's offset and follows the cursor |
| Controls.MouseDrag.Up | PC/AllanEvan_ProjC/ProjectC/ProjectC.js:1115-1118 | `myMouseUp` makes a last move and always ends the drag |
| Controls.MouseDrag.MoveA | PA/AllanEvan_ProjA/ProjectA/ProjectA.js:366-373 | project A's `myMouseMove` only follows the cursor, and only while dragging |
| Controls.MouseDrag.UpA | PA/AllanEvan_ProjA/ProjectA/ProjectA.js:375-379 | project A's `myMouseUp` only ends the drag, leaving the point where it was |
| Dot.ReplaceFirstDashes | PC/AllanEvan_ProjC/ProjectC/SceneGraph.js:1045 | `replace("-", "_")` leaves a name without `-` unchanged and otherwise turns exactly one `-` into `_`, keeping the rest |
| Dot.ReplaceFirstExample | PC/AllanEvan_ProjC/ProjectC/SceneGraph.js:1045 | a node named `arm-1-a` is written `arm_1-a` |
| Dot.GroupEdges | PC/AllanEvan_ProjC/ProjectC/SceneGraph.js:1057-1059 | one group-to-transform edge per child |
| Dot.ClusterCount | PC/AllanEvan_ProjC/ProjectC/SceneGraph.js:1043-1065 | the subgraph helper returns the incoming cluster number plus one per node that has children |
| Dot.ClusterCountChildren | PC/AllanEvan_ProjC/ProjectC/SceneGraph.js:1052-1056 | the counter threaded through the first k children grows by one per node with children in their subtrees |
| Dot.SubGraphShape | PC/AllanEvan_ProjC/ProjectC/SceneGraph.js:1043-1065 | a leaf gives only its transform line, with the counter unchanged; a node with children opens with the four group lines numbered by the incoming counter; every subgraph ends with its transform line |
| Dot.GetSceneGraphDotStringSubGraph | PC/AllanEvan_ProjC/ProjectC/SceneGraph.js:1043-1065 | the helper's two loops produce the subgraph pieces and cluster counter of the recursive definition |
| Dot.SubGraphChildrenStep | PC/AllanEvan_ProjC/ProjectC/SceneGraph.js:1052-1056 | one more child's subgraph extends the pieces and takes over the counter |
| Dot.Declarations | PC/AllanEvan_ProjC/ProjectC/SceneGraph.js:1086-1090 | one mesh declaration per covered mesh |
| Dot.DeclarationsStep | PC/AllanEvan_ProjC/ProjectC/SceneGraph.js:1087-1089 | one more pass of the declaration loop appends the next mesh's declaration |
| Dot.GetSceneGraphDotStringMeshes | PC/AllanEvan_ProjC/ProjectC/SceneGraph.js:1070-1093 | the mesh helper produces the pieces and the shared set of meshes of the recursive definition |
| Dot.MeshesChildrenStep | PC/AllanEvan_ProjC/ProjectC/SceneGraph.js:1082-1084 | one more child's mesh pieces extend those of the earlier children, the shared set passed along |
| Dot.AppendDeclarations | PC/AllanEvan_ProjC/ProjectC/SceneGraph.js:1086-1090 | the loop over the set appends one declaration per mesh, in insertion order |
| Dot.Texts | PC/AllanEvan_ProjC/ProjectC/SceneGraph.js:1030-1038 | one text per line |
| Dot.GetSceneGraphDotString | PC/AllanEvan_ProjC/ProjectC/SceneGraph.js:1030-1038 | the string returned is the header, the subgraph, the mesh lines and the closing brace, concatenated |
| Dot.MeshesCovered | PC/AllanEvan_ProjC/ProjectC/SceneGraph.js:1070-1093 | after the helper, the shared set is the incoming one followed by the meshes of the subtree not already in it, in first-occurrence order |
| Dot.MeshesChildrenCovered | PC/AllanEvan_ProjC/ProjectC/SceneGraph.js:1082-1084 | the same for the first k children |
| Dot.MeshEdgesCount | PC/AllanEvan_ProjC/ProjectC/SceneGraph.js:1077-1080 | one transform-to-mesh edge per mesh reference in the subtree |
| Dot.MeshEdgesChildrenCount | PC/AllanEvan_ProjC/ProjectC/SceneGraph.js:1082-1084 | the same for the first k children |
| Dot.MeshesPieces | PC/AllanEvan_ProjC/ProjectC/SceneGraph.js:1070-1093 | in a tree whose nodes below the top have parents, the helper writes the transform-to-mesh edges in pre-order, followed by the declarations only at a node without a parent |
| Dot.MeshesChildrenPieces | PC/AllanEvan_ProjC/ProjectC/SceneGraph.js:1082-1084 | the children of a parented tree contribute only their edges |
| Dot.RootDeclaresEachMeshOnce | PC/AllanEvan_ProjC/ProjectC/SceneGraph.js:1030-1093 | from the root, every mesh reference gets one edge and each distinct mesh exactly one declaration: the declared meshes are distinct and are exactly those referenced |
| DrawAll.Resolve | PC/AllanEvan_ProjC/ProjectC/SceneGraph.js:850-862 | a camera's viewport resolves exactly when its mode is `absolute` or `relative`: absolute values are taken as pixels, relative ones are scaled by the canvas size, and any other mode throws `Invalid viewport mode: ` followed by the mode |
| DrawAll.RelativeRoundTrip | PC/AllanEvan_ProjC/ProjectC/SceneGraph.js:850-862 | a pixel rectangle given as fractions of a non-empty canvas, or as absolute pixels, resolves back to itself |
| DrawAll.DefaultViewports | PC/AllanEvan_ProjC/ProjectC/SceneGraph.js:586-592 | a default project C viewport covers the whole canvas; a default project B viewport is empty |
| DrawAll.HalfCanvasExample | PC/AllanEvan_ProjC/ProjectC/SceneGraph.js:855-859 | the right half of an 800 by 600 canvas resolves to x 400, width 400, height 600 |
| DrawAll.ThrowsAtFirstInvalid | PC/AllanEvan_ProjC/ProjectC/SceneGraph.js:845-877 | the camera loop throws exactly when some camera has an unknown mode, and then throws the message of the first such camera |
| DrawAll.ThrownStep | PC/AllanEvan_ProjC/ProjectC/SceneGraph.js:845-862 | one more camera keeps what was thrown, else throws exactly when its mode is unknown |
| DrawAll.ThrownStays | PC/AllanEvan_ProjC/ProjectC/SceneGraph.js:861 | once a camera has thrown, no later camera adds calls or changes what is thrown |
| DrawAll.CameraStep | PC/AllanEvan_ProjC/ProjectC/SceneGraph.js:864-876 | a camera that resolves adds its viewport, projection and traversal calls to the log |
| DrawAll.CameraTurnShaded | PC/AllanEvan_ProjC/ProjectC/SceneGraph.js:846-876 | one turn of project C's camera loop logs the camera's viewport and traversal, or stops with the throw |
| DrawAll.CameraTurnPlain | PB/AllanEvan_ProjB/ProjectB/SceneGraph.js:480-508 | one turn of project B's camera loop, the projection and look-at applied to the model matrix itself |
| DrawAll.DrawAllShaded | PC/AllanEvan_ProjC/ProjectC/SceneGraph.js:834-878 | project C `drawAll` sets the full-canvas viewport, clears, and draws the scene once per camera, from the identity model matrix with the camera's projection passed down, until a camera throws; the stack ends as it began |
| DrawAll.DrawAllPlain | PB/AllanEvan_ProjB/ProjectB/SceneGraph.js:468-510 | project B `drawAll` does the same, drawing from the camera's matrix |
| DrawAll.DrawAllA | PA/AllanEvan_ProjA/ProjectA/SceneGraph.js:236-248 | project A `drawAll` sets the full-canvas viewport, clears, and draws the scene once from the identity matrix at unit scale |
| Materials.MeshNodeNamesExact | PC/AllanEvan_ProjC/ProjectC/ProjectC.js:114-141 | the names `initMaterials` visits are exactly those of the mesh-bearing nodes anywhere in the tree, in both directions |
| Materials.MeshNodeNamesListExact | PC/AllanEvan_ProjC/ProjectC/ProjectC.js:138-140 | the names gathered from the first k children are exactly those of mesh-bearing nodes in those children's subtrees |
| Materials.DefaultsStep | PC/AllanEvan_ProjC/ProjectC/ProjectC.js:125 | writing the default materials for one list of names and then another is writing them for the two lists together |
| Materials.BindersStep | PC/AllanEvan_ProjC/ProjectC/ProjectC.js:127-133 | storing the binders for one list of names and then another is storing them for the two lists together |
| Materials.MaterialPage.constructor | PC/AllanEvan_ProjC/ProjectC/ProjectC.js:114-141 | the page starts with no materials, no selector options and no node binders |
| Materials.MaterialPage.InitMaterials | PC/AllanEvan_ProjC/ProjectC/ProjectC.js:114-141 | the walk adds one selector option per mesh-bearing node in pre-order, gives each the white, white, white, shininess 80 material without vertex colours, and stores the five material binders under its name; nothing else changes |
| Materials.MaterialPage.InitChildren | PC/AllanEvan_ProjC/ProjectC/ProjectC.js:138-140 | the loop over the children adds, in order, what `initMaterials` adds for each child's subtree |
| Materials.HexRunDigits | PC/AllanEvan_ProjC/ProjectC/ProjectC.js:47 | every character of the leading digit run that `parseInt` reads is a hexadecimal digit |
| Materials.HexColorShape | PC/AllanEvan_ProjC/ProjectC/ProjectC.js:94-96 | a channel value between 0 and 1 is shown as exactly two lowercase hexadecimal digits |
| Materials.DigitRoundTrip | PC/AllanEvan_ProjC/ProjectC/ProjectC.js:94-96 | each digit value 0-15 is written as a lowercase digit that reads back as the same value, and each lowercase digit is the digit written for its value |
| Materials.ParseTwoDigits | PC/AllanEvan_ProjC/ProjectC/ProjectC.js:47 | `parseInt(s, 16)` of two hexadecimal digits is sixteen times the first plus the second |
| Materials.WriteChannel | PC/AllanEvan_ProjC/ProjectC/ProjectC.js:94-96 | the channel n/255 for n in 0-255 is shown as the two digits of n in base 16 |
| Materials.HexColorRoundTrip | PC/AllanEvan_ProjC/ProjectC/ProjectC.js:86-96 | two lowercase digits read by the colour input handler and shown again by `toHexColorValue` give the same two digits |
| Materials.HexChannelRoundTrip | PC/AllanEvan_ProjC/ProjectC/ProjectC.js:47 | a channel n/255 shown by `toHexColorValue` reads back by `parseInt(..., 16)` as n |
| Meshes.NewVertex | PC/AllanEvan_ProjC/ProjectC/SceneGraph.js:242-251 | a vertex keeps its position and colour, and its normal is the given one or (1, 0, 0) when none is given |
| Meshes.VerifyAttribs | PC/AllanEvan_ProjC/ProjectC/SceneGraph.js:419-425 | succeeds exactly when every expected attribute was found; otherwise it reports the first missing one, naming it and the shader |
| Meshes.Mesh.constructor | PC/AllanEvan_ProjC/ProjectC/SceneGraph.js:285-288 | a new project C mesh has the given type, name and program, no vertices, no uniforms, no VBO slot and no wireframe |
| Meshes.MeshArgsError | PC/AllanEvan_ProjC/ProjectC/SceneGraph.js:290-300 | the constructor throws exactly when the name is falsy, the program is missing or the render type is falsy (missing or `POINTS`, which is 0), checked in that order with the source's messages |
| Meshes.NewMesh | PC/AllanEvan_ProjC/ProjectC/SceneGraph.js:285-301 | `new Mesh(...)` throws the message `MeshArgsError` gives, and otherwise yields a fresh empty mesh with the given fields |
| Meshes.SimpleMesh.constructor | PB/AllanEvan_ProjB/ProjectB/SceneGraph.js:177-180 | a project A/B mesh has the given type and name, the vertices its builder pushed and no VBO slot yet |
| Normals.FlatTrianglesShareNormal | PC/AllanEvan_ProjC/ProjectC/SceneGraph.js:677-693 | in flat mode the three vertices of each complete triangle get the same normal, the normalised cross product of its two sides from the first corner; positions, colours and any trailing vertices are untouched |
| Normals.CalculateNormals | PC/AllanEvan_ProjC/ProjectC/SceneGraph.js:664-711 | a mesh that is not `TRIANGLES` throws the source's message before any vertex is touched; a vertex count that is not a multiple of 3 throws a `TypeError` after the complete triangles were written; otherwise every triangle gets its corner normals and, when smoothing, the vertices are then smoothed |
| Normals.LoopEnd | PC/AllanEvan_ProjC/ProjectC/SceneGraph.js:677 | the step-3 loop stops at the end of the last complete triangle, and runs off the end exactly when the count is not a multiple of 3 |
| Normals.TriangleStep | PC/AllanEvan_ProjC/ProjectC/SceneGraph.js:678-704 | one iteration writes the three corner normals of triangle `i` and nothing else |
| Normals.GroupMembers | PC/AllanEvan_ProjC/ProjectC/SceneGraph.js:723-729 | a vertex is filed in the list of key `k` exactly when its position's text is `k` |
| Normals.IndexKeys | PC/AllanEvan_ProjC/ProjectC/SceneGraph.js:723-729 | the dictionary is keyed by exactly the position texts met, each visited once, in insertion order |
| Normals.IndexGroups | PC/AllanEvan_ProjC/ProjectC/SceneGraph.js:723-729 | each list holds, in vertex order, the vertices filed under its key, and none is empty |
| Normals.FileByKey | PC/AllanEvan_ProjC/ProjectC/SceneGraph.js:723-729 | the first loop of `smoothNormals` builds exactly that dictionary and key order |
| Normals.SumGroup | PC/AllanEvan_ProjC/ProjectC/SceneGraph.js:734-737 | `cumSum` is the first normal of the list with each later one added on the right |
| Normals.AssignGroup | PC/AllanEvan_ProjC/ProjectC/SceneGraph.js:740-742 | every vertex of the list gets the given normal; every other vertex is unchanged |
| Normals.SmoothGroup | PC/AllanEvan_ProjC/ProjectC/SceneGraph.js:731-744 | one round of the second loop gives every vertex of key `k` the normalised sum of that key's normals and leaves the rest as it was |
| Normals.SmoothStep | PC/AllanEvan_ProjC/ProjectC/SceneGraph.js:731-744 | smoothing one more key extends the set of smoothed keys by it |
| Normals.SmoothNormals | PC/AllanEvan_ProjC/ProjectC/SceneGraph.js:722-745 | `smoothNormals` leaves exactly `Smoothed` of the old vertices |
| Normals.SmoothedSharesByKey | PC/AllanEvan_ProjC/ProjectC/SceneGraph.js:722-745 | after smoothing, positions and colours are unchanged, any two vertices whose positions print alike (8 decimals, −0 as 0) share a normal, and that normal is the normalised sum of the normals of exactly those vertices |
| Normals.LoneVertexNormalised | PC/AllanEvan_ProjC/ProjectC/SceneGraph.js:733-741 | a vertex whose position no other vertex shares keeps its own normal, normalised |
| NameGraphs.GetNameGraph | PA/AllanEvan_ProjA/ProjectA/SceneGraph.js:283-287 | `getNameGraph` returns an object whose single key is the root's name, mapped to the helper's object for the root |
| NameGraphs.GetNameGraphHelper | PA/AllanEvan_ProjA/ProjectA/SceneGraph.js:292-300 | the helper's loop, one assignment per child with a recursive call, computes exactly `Helper` |
| NameGraphs.HelperKeys | PA/ProjectA_eah8003/ProjectA/SceneGraph.js:221-229 | the helper's object is keyed by exactly the children's names, and a leaf gives `{}` |
| NameGraphs.FoldKeys | PA/AllanEvan_ProjA/ProjectA/SceneGraph.js:295-297 | after `k` loop steps the object is keyed by the names of the first `k` children |
| NameGraphs.HelperLastWins | PC/AllanEvan_ProjC/ProjectC/SceneGraph.js:938-946 | a child whose name no later sibling repeats is mirrored under its name by its own name graph; siblings sharing a name keep only the last one |
| NameGraphs.FoldLastWins | PC/AllanEvan_ProjC/ProjectC/SceneGraph.js:941-943 | after `k` steps, a child whose name no later one of those steps repeats is mirrored under its name |
| NameGraphs.DistinctNamesMirrored | PC/AllanEvan_ProjC/ProjectC/SceneGraph.js:929-946 | with distinct sibling names the object has one entry per child, each the child's own name graph |
| NameGraphs.DistinctCount | PC/AllanEvan_ProjC/ProjectC/SceneGraph.js:941-943 | `k` children with distinct names give `k` keys |
| NodePath.IndexOf | PB/AllanEvan_ProjB/ProjectB/SceneGraph.js:596 | `indexOf` is -1 exactly when the element is absent, and otherwise the position of its first occurrence |
| NodePath.Top | PB/AllanEvan_ProjB/ProjectB/SceneGraph.js:592-602 | following truthy `parent` links from a node ends at an ancestor with no parent |
| NodePath.Follow | PB/AllanEvan_ProjB/ProjectB/SceneGraph.js:578-586 | following `children[path[k]]` from a node stays inside the arena or reports the index that missed |
| NodePath.PathReaches | PB/AllanEvan_ProjB/ProjectB/SceneGraph.js:592-602 | the path has one entry per ancestor link, is empty exactly for a parentless node, and following it from the topmost ancestor reaches the node |
| NodePath.GetNodePath | PC/AllanEvan_ProjC/ProjectC/SceneGraph.js:973-983 | the `while (currNode.parent)` loop with `unshift(indexOf(...))` computes exactly `PathTo` |
| NodePath.Walk | PB/AllanEvan_ProjB/ProjectB/SceneGraph.js:578-586 | `getTransform`'s walk from the root either reaches a node with the accumulated scale or throws a `TypeError` at a missing child or transform |
| NodePath.WalkErrStays | PB/AllanEvan_ProjB/ProjectB/SceneGraph.js:578-586 | once the walk has thrown, walking a longer path throws too |
| NodePath.TransformScale | PC/AllanEvan_ProjC/ProjectC/SceneGraph.js:952-968 | the scale `getTransform` leaves in its matrix is the walk's scale along `getNodePath`, and it throws exactly when that walk does |
| NodePath.TransformScaleOfPath | PB/AllanEvan_ProjB/ProjectB/SceneGraph.js:574-590 | from the topmost ancestor the walk succeeds exactly when every node on the chain below the top has its transform, and its scale is then the component-wise product of those nodes' scales |
| NodePath.TopScaleIgnored | PB/AllanEvan_ProjB/ProjectB/SceneGraph.js:578-586 | changing the topmost node's own scale does not change `getTransform`'s scale: the root's transform is never applied |
| Registry.NameCheckAsWritten | PB/AllanEvan_ProjB/ProjectB/SceneGraph.js:208-214 | as written: a missing name throws the "required" message; a present name is accepted exactly when it is neither registered nor a member every plain object inherits |
| Registry.NameCheck | PB/AllanEvan_ProjB/ProjectB/SceneGraph.js:208-214 | as intended: a missing name throws the "required" message; a present name is accepted exactly when it is not registered, and otherwise throws the duplicate message naming it |
| Registry.NameChecksAgree | PB/AllanEvan_ProjB/ProjectB/SceneGraph.js:212 | the two checks agree on a name exactly when it is registered or is not an inherited member |
| Registry.PrototypeNameRefused | PB/AllanEvan_ProjB/ProjectB/SceneGraph.js:212 | a first node named `toString` is refused as a duplicate by the check as written, accepted by the intended one |
| Registry.Construct | PB/AllanEvan_ProjB/ProjectB/SceneGraph.js:203-240 | a constructor call appends one node whose parent is the given one and which has no children, pushes it onto its parent's children even when it then throws, leaves every other node alone, throws what the corrected name check `NameCheck` says (names inherited from `Object.prototype` are admitted under Left out) and registers the name only when nothing is thrown |
| Registry.ConstructKeepsShape | PC/AllanEvan_ProjC/ProjectC/SceneGraph.js:324-359 | a constructor call keeps the arena well formed (indices in range, children after parents, registered names are the nodes' own) and keeps `parent` and `children` in agreement, whatever it throws |
| Registry.ConstructChildren | PC/AllanEvan_ProjC/ProjectC/SceneGraph.js:324-328 | after a constructor call every child index is in range, later than its parent, and points back to that parent |
| Registry.ConstructParents | PC/AllanEvan_ProjC/ProjectC/SceneGraph.js:324-328 | after a constructor call every node with a parent is listed among that parent's children |
| Registry.ConstructRegistry | PC/AllanEvan_ProjC/ProjectC/SceneGraph.js:333-336 | after a constructor call every registered name maps to a node carrying that name |
| Registry.Scene.constructor | PB/AllanEvan_ProjB/ProjectB/SceneGraph.js:277 | a page starts with no nodes and an empty `Animation.nodes` |
| Registry.Scene.NewNode | PB/AllanEvan_ProjB/ProjectB/SceneGraph.js:203-240 | `new SceneGraphNode(name, parent, ...)` in projects B and C is `Construct`, with its corrected name check, the identity quaternion as default rotation and `enabled` true |
| Registry.Scene.NewNodeA | PA/AllanEvan_ProjA/ProjectA/SceneGraph.js:91-122 | the project A constructors have no parent and default to zero Euler angles; Allan's node has `enabled` true, eah8003's has no `enabled` field; the name check is the corrected `NameCheck` |
| Registry.Scene.SetChildren | PA/AllanEvan_ProjA/ProjectA/ProjectA.js:140 | assigning `children` replaces that one node's child list and changes nothing else |
| Registry.Scene.SetEnabled | PA/AllanEvan_ProjA/ProjectA/ProjectA.js:72-73 | assigning `enabled` changes that one flag and nothing else |
| Registry.Scene.SetPos | PA/AllanEvan_ProjA/ProjectA/ProjectA.js:106-107 | assigning `pos` changes that one position and nothing else |
| Registry.Scene.SetRot | PA/AllanEvan_ProjA/ProjectA/ProjectA.js:88-92 | assigning `rot` (or writing into the node's own rotation object) changes that one rotation and nothing else |
| Registry.Scene.PushChild | PA/AllanEvan_ProjA/ProjectA/ProjectA.js:155-166 | `children.push(c)` appends `c` to that one node's children and changes nothing else |
| Render.Renderer.constructor | PC/AllanEvan_ProjC/ProjectC/SceneGraph.js:762 | the matrix stack and the call log start empty |
| Render.Renderer.PushMatrix | PC/AllanEvan_ProjC/ProjectC/SceneGraph.js:762 | `pushMatrix` puts the matrix on top of the stack and logs the push |
| Render.Renderer.PopMatrix | PC/AllanEvan_ProjC/ProjectC/SceneGraph.js:817 | `popMatrix` returns the top of a non-empty stack and removes it |
| Render.Renderer.Emit | PC/AllanEvan_ProjC/ProjectC/SceneGraph.js:775-808 | any other GL call is logged and leaves the stack alone |
| Render.CallBinders | PC/AllanEvan_ProjC/ProjectC/SceneGraph.js:797-801 | the binder loop calls, in order, the binders whose names the program's `attribIds` contain |
| Render.SelectRenderProgram | PC/AllanEvan_ProjC/ProjectC/SceneGraph.js:820-828 | `selectRenderProgram` uses the program, then calls the global binders it declares |
| Render.SetRoleUniforms | PC/AllanEvan_ProjC/ProjectC/SceneGraph.js:774-794 | the projection, camera position, model and normal uniforms are set only when the program names them, and the model matrix is scaled only when it has a model-matrix uniform |
| Render.DrawMesh | PC/AllanEvan_ProjC/ProjectC/SceneGraph.js:768-812 | project C's mesh block leaves the stack and the matrix as they were and logs push, selection, role uniforms, the mesh's binders, one draw call and pop |
| Render.ShadedMeshLog | PC/AllanEvan_ProjC/ProjectC/SceneGraph.js:768-812 | those steps in that order make the mesh block's log |
| Render.DrawNodeShaded | PC/AllanEvan_ProjC/ProjectC/SceneGraph.js:752-818 | project C `drawNode` hands back the matrix it was given, leaves the stack as it found it, and logs the traversal's events |
| Render.DrawChildrenShaded | PC/AllanEvan_ProjC/ProjectC/SceneGraph.js:814-816 | the children loop logs each child's traversal, in array order, from the same matrix and scale |
| Render.DrawSimpleMesh | PB/AllanEvan_ProjB/ProjectB/SceneGraph.js:450-456 | the project A/B mesh block logs push, the model matrix upload, one `drawArrays` and pop, and leaves the matrix as it was |
| Render.DrawNodePlain | PB/AllanEvan_ProjB/ProjectB/SceneGraph.js:434-462 | project A/B `drawNode` hands back its matrix, leaves the stack as it found it, and logs the traversal's events |
| Render.DrawChildrenPlain | PB/AllanEvan_ProjB/ProjectB/SceneGraph.js:458-460 | the children loop logs each child's traversal in array order |
| Render.ChildLog | PA/AllanEvan_ProjA/ProjectA/SceneGraph.js:226-228 | drawing child k extends the log of the first k children to the first k+1 |
| Render.SkippedLog | PA/AllanEvan_ProjA/ProjectA/SceneGraph.js:206-208 | a disabled node, where `enabled` is tested, logs nothing |
| Render.NodeLog | PA/ProjectA_eah8003/ProjectA/SceneGraph.js:148-174 | a node that is drawn logs its push, its own mesh block, its children and its pop; the second project A framework draws every node this way |
| RenderFacts.PickAppend | PC/AllanEvan_ProjC/ProjectC/SceneGraph.js:752-818 | what is picked from two runs of calls is what is picked from each, in order |
| RenderFacts.PickNone | PC/AllanEvan_ProjC/ProjectC/SceneGraph.js:752-818 | calls that select nothing contribute nothing |
| RenderFacts.BindersAreSetup | PC/AllanEvan_ProjC/ProjectC/SceneGraph.js:797-801 | the binder loop makes only binder calls |
| RenderFacts.RolesAreSetup | PC/AllanEvan_ProjC/ProjectC/SceneGraph.js:774-794 | the role uniforms are uniform uploads only |
| RenderFacts.MeshEventsShape | PC/AllanEvan_ProjC/ProjectC/SceneGraph.js:768-812 | a mesh block opens with a push, ends with a draw of its mesh at the accumulated scale and a pop, and between them only selects the program (project C) and sets uniforms |
| RenderFacts.MeshEventsDraw | PC/AllanEvan_ProjC/ProjectC/SceneGraph.js:803-809 | the mesh block draws its mesh once, at the accumulated scale |
| RenderFacts.DrawsOnce | PC/AllanEvan_ProjC/ProjectC/SceneGraph.js:803-811 | calls that draw nothing followed by one draw and a pop draw exactly that one mesh |
| RenderFacts.NoDrawsBefore | PC/AllanEvan_ProjC/ProjectC/SceneGraph.js:768-802 | a prefix with no draw call draws nothing |
| RenderFacts.PickWrapped | PC/AllanEvan_ProjC/ProjectC/SceneGraph.js:762-817 | a push and a pop around some calls select what the calls select |
| RenderFacts.DrawnInPreOrder | PC/AllanEvan_ProjC/ProjectC/SceneGraph.js:752-818 | `drawNode` draws exactly the meshes of enabled nodes whose ancestors are all enabled, in pre-order with children in array order, each at the product of the scales from the start down to it |
| RenderFacts.DrawnChildren | PC/AllanEvan_ProjC/ProjectC/SceneGraph.js:814-816 | the children loop draws what the children's walks reach, in array order |
| RenderFacts.FirstsAppend | PA/ProjectA_eah8003/ProjectA/SceneGraph.js:170-172 | the meshes of two runs of draws are those of each, in order |
| RenderFacts.UncheckedDrawsAll | PA/ProjectA_eah8003/ProjectA/SceneGraph.js:148-174 | without `enabled` tests the walk draws one mesh per mesh-bearing node, in the pre-order in which `buildBuffer` meets them |
| RenderFacts.UncheckedChildren | PA/ProjectA_eah8003/ProjectA/SceneGraph.js:170-172 | the same for the first k children |
| RenderFacts.DepthAppend | PC/AllanEvan_ProjC/ProjectC/SceneGraph.js:762-817 | the stack depth change of two runs of calls adds up |
| RenderFacts.BalancedAppend | PC/AllanEvan_ProjC/ProjectC/SceneGraph.js:814-816 | two balanced runs of calls in a row are balanced |
| RenderFacts.StackNeutral | PC/AllanEvan_ProjC/ProjectC/SceneGraph.js:773-809 | calls that neither push nor pop are balanced |
| RenderFacts.BalancedWrap | PC/AllanEvan_ProjC/ProjectC/SceneGraph.js:762-817 | a push, a balanced run and a pop are balanced |
| RenderFacts.MeshEventsBalanced | PC/AllanEvan_ProjC/ProjectC/SceneGraph.js:769-811 | the mesh block pops what it pushed |
| RenderFacts.DrawNodeBalanced | PC/AllanEvan_ProjC/ProjectC/SceneGraph.js:752-818 | `drawNode` pops exactly what it pushed and never pops below where it started |
| RenderFacts.ChildrenBalanced | PC/AllanEvan_ProjC/ProjectC/SceneGraph.js:814-816 | the children loop is balanced |
| RenderFacts.WellBoundAppend | PC/AllanEvan_ProjC/ProjectC/SceneGraph.js:797-801 | two runs of calls are well bound exactly when the first is, and the second is from the program the first leaves in use |
| RenderFacts.NoBinding | PC/AllanEvan_ProjC/ProjectC/SceneGraph.js:774-794 | calls that neither bind nor select keep the program in use and are well bound |
| RenderFacts.BindersBound | PC/AllanEvan_ProjC/ProjectC/SceneGraph.js:797-801 | the binder loop calls only names the program declares and selects nothing |
| RenderFacts.MeshEventsBound | PC/AllanEvan_ProjC/ProjectC/SceneGraph.js:768-812 | a mesh block binds only names of the program in use, whatever program was in use before it |
| RenderFacts.ShadedBound | PC/AllanEvan_ProjC/ProjectC/SceneGraph.js:773-801 | after the selection, the role uniforms and the mesh's binders only bind names of the selected program |
| RenderFacts.RolesSelectNothing | PC/AllanEvan_ProjC/ProjectC/SceneGraph.js:774-794 | the role uniforms neither bind nor select |
| RenderFacts.ChainBound | PC/AllanEvan_ProjC/ProjectC/SceneGraph.js:773-809 | a selection, calls that bind nothing, the program's own binders and more calls that bind nothing are well bound |
| RenderFacts.HeadBound | PC/AllanEvan_ProjC/ProjectC/SceneGraph.js:820-828 | a push and a selection of a program are well bound and leave that program in use |
| RenderFacts.BindersOnlyDeclared | PC/AllanEvan_ProjC/ProjectC/SceneGraph.js:752-828 | per-mesh and global binders are called only for names in the `attribIds` of the program in use, over the whole walk |
| RenderFacts.ChildrenBound | PC/AllanEvan_ProjC/ProjectC/SceneGraph.js:814-816 | the children loop is well bound |
| RenderFacts.MeshEventsSelect | PC/AllanEvan_ProjC/ProjectC/SceneGraph.js:772-773 | a mesh block selects its mesh's program in project C and nothing in projects A and B |
| RenderFacts.OneSelectionPerDraw | PC/AllanEvan_ProjC/ProjectC/SceneGraph.js:752-828 | project C selects a program once per drawn mesh, that mesh's own, in drawing order; projects A and B never select |
| RenderFacts.OwnSelection | PC/AllanEvan_ProjC/ProjectC/SceneGraph.js:768-773 | a node's own mesh block selects that mesh's program, in project C only |
| RenderFacts.SelectionsChildren | PC/AllanEvan_ProjC/ProjectC/SceneGraph.js:814-816 | the children loop selects the programs of the meshes it draws, in order |
| RenderFacts.ProgramsAppend | PC/AllanEvan_ProjC/ProjectC/SceneGraph.js:814-816 | the programs of two runs of draws are those of each, in order |
| RenderFacts.DrawCallsAgree | PC/AllanEvan_ProjC/ProjectC/SceneGraph.js:803-809 | each `drawArrays` passes its mesh's render type, `vboStart` and `vboCount`; a `drawElements` of lines happens only in wireframe mode for a mesh with a wireframe index list, and draws all of it |
| RenderFacts.ChildCallsAgree | PC/AllanEvan_ProjC/ProjectC/SceneGraph.js:814-816 | the same over the children loop |
| Scenes.SuffixesDistinct | PA/AllanEvan_ProjA/ProjectA/ProjectA.js:136-139 | the four names `makeCyllinder` registers for one cylinder are pairwise different |
| Scenes.MakeCylinderA | PA/AllanEvan_ProjA/ProjectA/ProjectA.js:135-142 | `makeCyllinder` completes exactly when none of its four names is registered; it then appends the cylinder, its two caps (holding the circle mesh) and its side (holding the side mesh), makes the three parts its children and registers the four names; in every case the earlier nodes are untouched |
| Scenes.AddCylinderA | PA/AllanEvan_ProjA/ProjectA/ProjectA.js:145-153 | cylinder `k` of the arm, built after the root and the cylinders before it, does not throw, lands at index 4k-3 and extends the registry by its four names |
| Scenes.ArmFresh | PA/AllanEvan_ProjA/ProjectA/ProjectA.js:145-153 | the names of cylinder `k` are free once the root and cylinders 1 to k-1 are built, and registering them gives the registry with cylinders 1 to k |
| Scenes.BuildArmA | PA/AllanEvan_ProjA/ProjectA/ProjectA.js:145-153 | the arm is the five cylinders from index 1, each but the last holding the next one after its three parts, with all twenty names registered |
| Scenes.HousesFresh | PA/AllanEvan_ProjA/ProjectA/ProjectA.js:155-163 | no house name is taken by the root or the arm |
| Scenes.AddHouseA | PA/AllanEvan_ProjA/ProjectA/ProjectA.js:156-163 | one house is appended with unit scale and the house mesh, registered under its name, and pushed at the end of `house`'s children |
| Scenes.BuildHousesA | PA/AllanEvan_ProjA/ProjectA/ProjectA.js:155-163 | the five houses follow the arm from index 21, the last four pushed into `house` in order, with their names registered |
| Scenes.InitSceneGraphA | PA/AllanEvan_ProjA/ProjectA/ProjectA.js:129-171 | on a fresh page `initSceneGraph` throws nothing and leaves exactly the 26-node arena of the root, the arm and the houses, with the root holding `l1` and `house`, and the registry of all 26 names |
| Scenes.CylinderKidsA | PA/AllanEvan_ProjA/ProjectA/ProjectA.js:140 | a cylinder's children, by name, are its top cap, bottom cap and side, then the node pushed after them |
| Scenes.ArmShapeA | PA/AllanEvan_ProjA/ProjectA/ProjectA.js:145-153 | in the finished scene each `lk` holds exactly `lk_Top`, `lk_Bot`, `lk_Middle`, then `l(k+1)`; `l5` holds only its three parts |
| Scenes.RootKidsA | PA/AllanEvan_ProjA/ProjectA/ProjectA.js:165-166 | in the finished scene the root holds `l1`, then `house` |
| Scenes.HouseKidsA | PA/AllanEvan_ProjA/ProjectA/ProjectA.js:155-163 | in the finished scene `house` holds `house2` to `house5` in order and no other house holds anything |
| Scenes.CylinderMeshesA | PA/AllanEvan_ProjA/ProjectA/ProjectA.js:136-139 | a cylinder's nodes hold, in order, the circle mesh twice and the side mesh once |
| Scenes.CylinderCounts | PA/AllanEvan_ProjA/ProjectA/ProjectA.js:136-139 | appending one cylinder adds two references to the circle mesh and one to the side mesh, and none to any other mesh |
| Scenes.ArmCountsA | PA/AllanEvan_ProjA/ProjectA/ProjectA.js:144-153 | the root and the arm refer to the circle mesh 10 times, the side mesh 5 times and nothing else |
| Scenes.HouseMeshesA | PA/AllanEvan_ProjA/ProjectA/ProjectA.js:155-163 | all five houses hold the one house mesh |
| Scenes.MeshCountsA | PA/AllanEvan_ProjA/ProjectA/ProjectA.js:129-166 | the finished scene refers to the circle mesh from 10 nodes and to the side and house meshes from 5 each, so three mesh objects are shared by twenty nodes |
| Scenes.ArmRegisteredA | PA/AllanEvan_ProjA/ProjectA/ProjectA.js:145-153 | `l1` to `l5` are registered under the arena index of their own node |
| Scenes.LinkCountsA | PA/AllanEvan_ProjA/ProjectA/ProjectA.js:136-153 | appending one cylinder of the arm adds two references to the circle mesh and one to the side mesh |
| ScenesB.MakeCylinderB | PB/AllanEvan_ProjB/ProjectB/ProjectB.js:259-265 | project B's `makeCyllinder` pushes the cylinder into its parent even when a name check then throws; it completes exactly when none of its four names is registered, and then appends the cylinder and its three parts (each a child of the cylinder, caps holding the circle mesh, side holding the side mesh) and registers the four names; every other earlier node is untouched |
| ScenesB.AddPartB | PB/AllanEvan_ProjB/ProjectB/SceneGraph.js:203-240 | one cap or side constructed under the cylinder: it is pushed into the cylinder's children, throws what the name check says, and on success is appended with `enabled` true and its name registered |
| ScenesB.AddPartsB | PB/AllanEvan_ProjB/ProjectB/ProjectB.js:261-263 | the three parts complete exactly when their three names are free, and then the cylinder holds exactly the three of them |
| ScenesB.ArmFreshB | PB/AllanEvan_ProjB/ProjectB/ProjectB.js:268-274 | the names of cylinder `k` are free once `CVV` and cylinders 1 to k-1 are built, and registering them gives the registry with cylinders 1 to k |
| ScenesB.AddCylinderB | PB/AllanEvan_ProjB/ProjectB/ProjectB.js:268 | `makeCyllinder` on a registry holding exactly the earlier cylinders does not throw: the new cylinder is pushed into its parent, appended with its parts at index 4k-3 and registered |
| ScenesB.LinkPushedB | PB/AllanEvan_ProjB/ProjectB/ProjectB.js:269-274 | pushing the next cylinder into cylinder `k` turns it into the cylinder that holds its successor after its three parts |
| ScenesB.ExtendArmB | PB/AllanEvan_ProjB/ProjectB/ProjectB.js:269-274 | building cylinder `k` under cylinder `k-1` appends it at index 4k-3, pushes it into `k-1` and extends the registry by its four names |
| ScenesB.UpperArmB | PB/AllanEvan_ProjB/ProjectB/ProjectB.js:270-273 | `l4` to `l7` are appended, each pushed into the one before |
| ScenesB.InitArmB | PB/AllanEvan_ProjB/ProjectB/ProjectB.js:267-274 | on a fresh page the root `CVV` and the seven cylinders are built without a throw: `CVV` holds `l1`, each cylinder holds its top cap, bottom cap, side and then the next cylinder, and all 29 names are registered |
| ScenesB.CylinderMeshesB | PB/AllanEvan_ProjB/ProjectB/ProjectB.js:261-263 | a cylinder's nodes hold, in order, the circle mesh twice and the side mesh once |
| ScenesB.LinkCountsB | PB/AllanEvan_ProjB/ProjectB/ProjectB.js:259-265 | appending one cylinder adds two references to the circle mesh and one to the side mesh, and none to any other mesh |
| ScenesB.MeshCountsB | PB/AllanEvan_ProjB/ProjectB/ProjectB.js:267-274 | the arm refers to the circle mesh from 14 nodes and to the side mesh from 7 |
| ScenesB.SharedMeshesB | PB/AllanEvan_ProjB/ProjectB/ProjectB.js:259-274 | although 21 nodes refer to them, a walk that skips meshes it has already placed places the circle and the side mesh exactly once each |
| ScenesB.LinkMeshesB | PB/AllanEvan_ProjB/ProjectB/ProjectB.js:259-265 | each of the seven cylinders references the circle mesh twice and then the side mesh |
| SceneTree.FreshElems | PC/AllanEvan_ProjC/ProjectC/SceneGraph.js:602-626 | the meshes `buildBuffer` places during a walk are exactly those the walk meets that were not placed before |
| SceneTree.FreshDistinct | PC/AllanEvan_ProjC/ProjectC/SceneGraph.js:609 | no mesh is placed twice |
| SceneTree.FreshAppend | PC/AllanEvan_ProjC/ProjectC/SceneGraph.js:618-620 | a walk over one part of the tree and then another places what the first places, then what the second places that the first did not |
| SceneTree.SharedPlacedOnce | PC/AllanEvan_ProjC/ProjectC/SceneGraph.js:609-616 | a mesh not yet placed is placed exactly once however many nodes share it; one already placed is not placed again |
| Solids.BlackBox | PB/AllanEvan_ProjB/ProjectB/ProjectB.js:631-679 | the black box has 36 vertices, every one coloured (0, 0, 0), at the ±0.5 cube corners of its six two-triangle faces |
| Solids.InitBlackBoxMeshB | PB/AllanEvan_ProjB/ProjectB/ProjectB.js:631-679 | `initBlackBoxMesh` yields a fresh `TRIANGLES` mesh named "BlackBox" holding those 36 vertices |
| Solids.House | PA/AllanEvan_ProjA/ProjectA/ProjectA.js:207-263 | the house has 42 vertices: five walls of two triangles each at the cube corners in their listed colours, then four roof triangles meeting at the apex (0, 0.75, 0) |
| Solids.InitHouseMeshA | PA/AllanEvan_ProjA/ProjectA/ProjectA.js:207-263 | project A's `initHouseMesh` yields a fresh unnamed `TRIANGLES` mesh holding the house |
| Solids.BlockAppend | PC/AllanEvan_ProjC/ProjectC/ProjectC.js:830-951 | a 36-vertex block of a concatenation comes from its first part, or from its second part shifted by the first part's blocks |
| Solids.FloorShape | PC/AllanEvan_ProjC/ProjectC/ProjectC.js:830-951 | the inner window loop of one floor yields 12 blocks of 36 vertices, window `d` in block `d` |
| Solids.FloorsShape | PC/AllanEvan_ProjC/ProjectC/ProjectC.js:830-951 | `f` floors yield 432f window vertices, window `c` of floor `i` in block 12i + c |
| Solids.BuildingShape | PC/AllanEvan_ProjC/ProjectC/ProjectC.js:830-951 | a building is its 36-vertex shell in block 0 followed by 432 window vertices per floor, a whole number of triangles |
| Solids.BuildingWindows | PC/AllanEvan_ProjC/ProjectC/ProjectC.js:830-951 | after the shell, window `c` of floor `i` is block 1 + 12i + c |
| Solids.ShellC | PC/AllanEvan_ProjC/ProjectC/ProjectC.js:830-951 | project C's building shell is one grey 36-vertex box |
| Solids.WindowC | PC/AllanEvan_ProjC/ProjectC/ProjectC.js:830-951 | a project C window is one 36-vertex box in a single colour |
| Solids.BuildingCShape | PC/AllanEvan_ProjC/ProjectC/ProjectC.js:830-951 | project C's building of `floors` floors has 36 + 432·floors vertices: the grey shell, then each window box, lit yellow or dark, in its block |
| Solids.BuildingVertsC | PC/AllanEvan_ProjC/ProjectC/ProjectC.js:830-951 | the loops of `initBuildingMesh` yield exactly that building, whatever the random choices |
| Solids.FloorVertsC | PC/AllanEvan_ProjC/ProjectC/ProjectC.js:830-951 | the inner loop appends the twelve windows of one floor |
| Solids.InitBuildingMeshC | PC/AllanEvan_ProjC/ProjectC/ProjectC.js:830-951 | project C's building mesh is a fresh phong `TRIANGLES` mesh named "Building" followed by the number of floors |
| Solids.ShellB | PB/AllanEvan_ProjB/ProjectB/ProjectB.js:681-802 | project B's shell is a 36-vertex box, vertex `k` shaded by the `k`-th random draw |
| Solids.WindowB | PB/AllanEvan_ProjB/ProjectB/ProjectB.js:681-802 | a project B window is a 36-vertex box, yellow when its first draw exceeds 0.9 and black otherwise, each vertex shaded by its own later draw |
| Solids.BuildingBShape | PB/AllanEvan_ProjB/ProjectB/ProjectB.js:681-802 | project B's building has 36 + 432·floors vertices: the shell, then window `c` of floor `i` in block 1 + 12i + c |
| Solids.BuildingBColors | PB/AllanEvan_ProjB/ProjectB/ProjectB.js:804-817 | with draws in [0, 1), every shell vertex is a grey in [0.65, 0.75) and every window vertex a yellow or a near-black shade, with its lit/dark choice shared by the whole window |
| Solids.BuildingVertsB | PB/AllanEvan_ProjB/ProjectB/ProjectB.js:681-802 | the loops of `initBuildingMesh` yield that building after exactly 36 + 444·floors random draws |
| Solids.FloorVertsB | PB/AllanEvan_ProjB/ProjectB/ProjectB.js:681-802 | the inner loop appends the twelve windows of one floor, taking 37 draws each |
| Solids.InitBuildingMeshB | PB/AllanEvan_ProjB/ProjectB/ProjectB.js:681-802 | project B's building mesh is a fresh `TRIANGLES` mesh named "Building" followed by the number of floors |
| Solids.RightColumn | PC/AllanEvan_ProjC/ProjectC/ProjectC.js:968-1013 | the column right of column `i` is `(i + 1) mod n`: the last column wraps around to the first |
| Solids.ColumnShape | PC/AllanEvan_ProjC/ProjectC/ProjectC.js:968-1013 | a sphere column after `k` cells has 6k vertices, all on the pale-yellow surface with their own position as normal |
| Solids.SphereShape | PC/AllanEvan_ProjC/ProjectC/ProjectC.js:968-1013 | `k` columns of `n` cells have 6nk vertices, a whole number of triangles, all sphere vertices |
| Solids.SpherePoints | PC/AllanEvan_ProjC/ProjectC/ProjectC.js:968-1013 | the first loop builds `n` columns of `n + 1` points, point `(i, j)` at `[i][j]` |
| Solids.SphereVerts | PC/AllanEvan_ProjC/ProjectC/ProjectC.js:968-1013 | the sphere's loops yield 6n² vertices, two triangles per cell |
| Solids.SphereColumns | PC/AllanEvan_ProjC/ProjectC/ProjectC.js:968-1013 | the outer triangle loop yields the `n` columns in order |
| Solids.ColumnVerts | PC/AllanEvan_ProjC/ProjectC/ProjectC.js:968-1013 | the inner triangle loop appends the `n` cells of one column |
| Solids.InitSphereMeshC | PC/AllanEvan_ProjC/ProjectC/ProjectC.js:968-1013 | `initSphereMesh` yields a fresh phong `TRIANGLES` mesh named "Sphere" holding the 6n² sphere vertices |
| Wireframe.WireframeFor | PC/AllanEvan_ProjC/ProjectC/SceneGraph.js:628-648 | an index list is created exactly for `TRIANGLES` and `TRIANGLE_FAN` meshes; any other type leaves the wireframe fields as they were |
| Wireframe.TriangleLoop | PC/AllanEvan_ProjC/ProjectC/SceneGraph.js:632-634 | the `TRIANGLES` loop from `vboStart` in steps of 3 emits `i, i+1, i+1, i+2, i+2, i` for each started triangle, 6·⌈n/3⌉ indices |
| Wireframe.FanLoop | PC/AllanEvan_ProjC/ProjectC/SceneGraph.js:637-639 | the `TRIANGLE_FAN` loop emits `vboStart, i, i, i-1` for every `i` strictly between `vboStart` and `vboStart + n` |
| Wireframe.WireframeIndices | PC/AllanEvan_ProjC/ProjectC/SceneGraph.js:628-642 | the two loops, chosen by render type, compute exactly `WireframeFor` |
| Wireframe.CalculateWireframeElements | PC/AllanEvan_ProjC/ProjectC/SceneGraph.js:628-648 | the mesh's wireframe becomes the list built for its type, and is left unchanged for any other type |
| Wireframe.TriangleEdgesStep | PC/AllanEvan_ProjC/ProjectC/SceneGraph.js:632-634 | one more triangle appends its six edge indices to the list |
| Wireframe.TriangleEdgesSame | PC/AllanEvan_ProjC/ProjectC/SceneGraph.js:632 | vertex counts that start the same number of triangles give the same list, so a trailing partial triangle is listed whole |
| Wireframe.FanEdgesStep | PC/AllanEvan_ProjC/ProjectC/SceneGraph.js:637-639 | one more rim vertex appends its spoke and rim edge |
| Wireframe.TriangleEdgesInRange | PC/AllanEvan_ProjC/ProjectC/SceneGraph.js:632-634 | a list of whole triangles gets 6 indices per triangle (2n in all), every one inside `[vboStart, vboStart + n)` |
| Wireframe.TriangleEdgesAreEdges | PC/AllanEvan_ProjC/ProjectC/SceneGraph.js:633 | triangle `t` contributes exactly its three edges, each as a pair of its own corners |
| Wireframe.FanEdgesInRange | PC/AllanEvan_ProjC/ProjectC/SceneGraph.js:637-639 | a fan of n ≥ 1 vertices gets 4(n−1) indices, all inside `[vboStart, vboStart + n)`, every spoke starting at the centre |

## Left out

- Matrix and quaternion arithmetic (`cuon-matrix`, `Quaternion`) is not computed. A matrix is the sequence of operations applied to it, and `QuatFromEuler` is the parameter `tilt`.
- Trigonometry (`Math.sin`, `Math.cos`), `HSVtoRGB`, `Vec3.normalize` and `Vec3.toString` are not computed. They enter as parameters (`Ring`, `VectorMath`, `Wave`, the grouping key), so counts, order and structure are exact but the float values are not.
- GL state beyond the calls logged by `Render.Renderer` is not modelled: buffers, shader compilation and `Shaders.js`.
- DOM access, `Date.now()`, `Math.random()` and `getMouseEventCoords` are not modelled. Their values are method parameters.
- JavaScript numbers are modelled as unbounded reals and integers. The 16-bit truncation of wireframe indices stored in a `Uint16Array` is not modelled.
- `Camera.move`, `Camera.rotate`, `fixVectors` and `right` are not modelled because they are vector arithmetic. This includes the inverted axis test in project C's `Camera.translate` (SceneGraph.js:471-476), so only the key-to-direction precedence is modelled.
- `dragQuat` and the mouse-driven rotation of project C's model are not modelled. The drag state of the mouse handlers is.
- The following main-file mesh builders are fixed float tables or loops over float grids, so they are not modelled: `initHouseMesh` in projects B and C, `initAxesMesh`, `initPlaneMesh` and `initGridMesh`.
- These setup functions only register DOM handlers or fixed objects, so they are not modelled: `initCameras`, `initRenderPrograms`, `initUniformControls` and `updateFramerate`.
- `calculateAllNormals` is a loop applying `calculateNormals` to every mesh, and is not modelled. `calculateNormals` and `smoothNormals` themselves are.
- The rest of project B's `initSceneGraph` (houses, grid, axes, plane and random buildings) is not modelled, and neither is project C's `initSceneGraph`. Only the project B arm and project A's whole scene are.
- `animatePerson` and `animateProp` (projects B and C) are not modelled, because they are trigonometric node updates. Of `animateBoxes`, only the trigonometric position and rotation updates of `house` to `house5` are left out: its box-clock updates are modelled by `Animate.Clocks.TickB` and `Animate.Clocks.TickC`, and its `enabled` write by `Animate.ShowB`. Project A's `animate` is modelled, with `Math.sin` and `Math.cos` as parameters.
- Registry.Construct, Registry.Scene.NewNode, Registry.Scene.NewNodeA: use the corrected name check `NameCheck`. In the source the duplicate test also refuses names inherited from `Object.prototype` (`toString`, `constructor`, `valueOf`, ...), because `Animation.nodes` is a plain object; `NameCheckAsWritten` and `PrototypeNameRefused` state that behaviour, and `NameChecksAgree` says the two checks differ only on such names. The same holds for the nodes built by Scenes.MakeCylinderA, ScenesB.MakeCylinderB and ScenesB.AddPartB, whose names their callers choose; the names `initSceneGraph` passes are never inherited ones.
- Animate.AnimateA: the `u_ColorOverride` uniform it sets from the colour sliders is not modelled, because it is a GL call with DOM values. The slider strings `armRotation` and `armWaveAmount` are taken as the numbers JavaScript converts them to (the `Wave` parameter), and `Math.sin`/`Math.cos` are parameters of `Wave`.
- Animate.ShowB, Animate.AnimateA: require the nodes they look up to be registered. In the source they always are, because `initSceneGraph` creates them; a missing name would throw a `TypeError`. `AnimateA` also requires `l1` to have a position and `house2`-`house5` an Euler rotation, which project A's `SceneGraphNode` constructor always provides.
- The second project A framework's `ProjectA.js` does not parse as JavaScript, so only its `SceneGraph.js` is modelled.
- `new Quaternion()` is taken to be the identity rotation `(0, 0, 0, 1)`.
- Scenes.InitSceneGraphA, ScenesB.InitArmB: require an empty page (no nodes, no registered names), as at page load.
- ScenesB.MakeCylinderB: requires `parent` to be an existing node. The source also accepts an undefined or null parent and then builds a cylinder with no parent; this method does not model that case, and every call in project B's `initSceneGraph` passes an existing node.
- Scenes.MakeCylinderA: when it throws, the contract states only that the arena starts with the nodes it had before. It does not state which of the four nodes were built before the throw.
- BufferBuild.BuildBuffer: the meshes placed are stated in the arena's order of first occurrence during the walk (`Fresh(MeshOcc(t), …)`) and not as a list of node visits.
- Project A's `SimpleMesh` has no name. Its DOT name is not used, since project A has no DOT export.

## Findings

| source | as written | input that shows it | evidently intended | confidence | as-written member | corrected member |
|---|---|---|---|---|---|---|
| PB/AllanEvan_ProjB/ProjectB/SceneGraph.js:212 | the duplicate-name test reads `Animation.nodes[name]` on a plain object `{}`, so names inherited from `Object.prototype` count as registered | the first node ever named `toString` (or `constructor`, `valueOf`, …) throws "Duplicate SceneGraphNode name: toString" | only names registered by earlier nodes are duplicates | not executed | Registry.PrototypeNameRefused | Registry.NameCheck |
