# Runtime gizmos and wearable grabbing, in Dafny

This project models two parts of a Unity hand-tracking painting application.

**The runtime gizmo system** (`RuntimeGizmoManager.cs`):

- A `RuntimeGizmoDrawer` does not draw anything when it is called. It records
  a *command stream*: a list of operation tags (set matrix, set colour, toggle
  wireframe, draw line, draw mesh) plus four side lists holding the matrices,
  colours, lines and meshes those tags consume.
- Its colour and matrix setters *coalesce*: setting the current value again
  records nothing.
- `DrawAllGizmosToScreen` *replays* the stream. It walks the tags with one
  read cursor per side list, picks one of four shader passes per draw, and
  re-sets the material only when the pass changes.
- `RuntimeGizmoManager` keeps two drawers and swaps them after a camera
  renders:
  - producers draw into the back drawer during `Update`;
  - the front drawer is *guarded* so that writes to it are reported at the
    next swap;
  - the old front is cleared and becomes the new back.
- When it is enabled, the manager builds three meshes procedurally: a cube
  of six quads, a wire cube of twelve edges, and a wire sphere of three
  circles.
- The arc helpers record chains of line segments.

**The wearable manager** (`WearableManager.cs`):

- It registers the wearable UIs and anchors in a fixed order.
- It turns changes in hand tracking and palm facing into notifications, but
  only on a change.
- When a pinch starts, it picks the nearest grabbable wearable within the
  grab distance and lets the pinching hand take it. A wearable is never held
  by both hands.

In the model every drawer, manager and wearable state is an immutable value,
and every operation is a pure function or method from the old value to the
new one. A C# exception becomes an `Outcome` of `Threw(drawer, error)`. The
drawer it carries is what had already been recorded when the exception was
thrown, so a wire-mode toggle recorded before a null-mesh failure stays.

Replay produces a trace of events instead of GL calls. Each draw event
carries:

- the pass;
- the material colour;
- the matrix (a mesh's own matrix composed after the current one);
- the wireframe flag.

The main theorem is `Commands.RecordMatchesReference`. It compares recording
a producer's calls into a coherent drawer and replaying the stream with
drawing each primitive straight away, in *immediate mode*, using the current
colour, matrix and wire mode. Both give the same draws, in the same order.
`Manager.FrameShowsProducers` lifts this to a whole frame: `Update` followed
by the swap in `onPostRender` shows exactly what the producers drew, in
immediate mode, starting from white and the identity matrix.

Modules, one per file:

| module | file | contents |
|---|---|---|
| `Wrappers` | `wrappers.dfy` | `Option` |
| `Geometry` | `geometry.dfy` | vectors, symbolic matrices, colours, lines, mesh ids |
| `Stream` | `stream.dfy` | the drawer and its recording operations |
| `Playback` | `playback.dfy` | replay, `setPass`, cursor accounting |
| `Coherence` | `coherence.dfy` | the invariant that the recorded state is the state replay ends in |
| `Commands` | `commands.dfy` | producers as call lists, and the immediate-mode reference |
| `Arcs` | `arcs.dfy` | `DrawWireArc` and `DrawCameraAwareWireCircle` |
| `Meshes` | `meshes.dfy` | `generateMeshes`, `addQuad`, `addCorner` |
| `Manager` | `manager.dfy` | the double buffer |
| `Wearables` | `wearables.dfy` | registration, pinch choice, grabbing, edge-triggered notifications |

## Model

| member | source | states |
|---|---|---|
| Stream.NewDrawer | Assets/LeapMotion/Core/Scripts/Utils/RuntimeGizmoManager.cs:350-362 | A new drawer has empty lists and is well formed. It is unwired, at the identity matrix and white, with an empty matrix stack, no guard (-1) and no meshes assigned. |
| Stream.SetColor | Assets/LeapMotion/Core/Scripts/Utils/RuntimeGizmoManager.cs:436-448 | Setting the colour the drawer already has changes nothing. Any other colour appends exactly one SetColor tag and that colour, becomes current, and changes nothing else. |
| Stream.SetMatrix | Assets/LeapMotion/Core/Scripts/Utils/RuntimeGizmoManager.cs:453-465 | Setting the current matrix changes nothing. Any other matrix appends exactly one SetMatrix tag and that matrix, becomes current, and changes nothing else. |
| Stream.PopMatrix | Assets/LeapMotion/Core/Scripts/Utils/RuntimeGizmoManager.cs:421-423 | Popping throws exactly when the stack is empty, and then leaves the drawer as it was. Otherwise the top becomes the current matrix through the coalescing setter, and the stack loses its top. |
| Stream.PushMatrix | Assets/LeapMotion/Core/Scripts/Utils/RuntimeGizmoManager.cs:414-416 | The current matrix is pushed onto the stack, and nothing else changes: no tag or payload is recorded. |
| Stream.PushThenPop | Assets/LeapMotion/Core/Scripts/Utils/RuntimeGizmoManager.cs:414-423 | A push followed by a pop returns exactly the drawer pushed from. |
| Stream.PopRestoresPushed | Assets/LeapMotion/Core/Scripts/Utils/RuntimeGizmoManager.cs:414-423 | Whatever matrix is set between a push and its pop, the pop succeeds and restores the pushed matrix and stack. |
| Stream.ResetMatrixAndColorState | Assets/LeapMotion/Core/Scripts/Utils/RuntimeGizmoManager.cs:428-431 | Afterwards the matrix is the identity and the colour is white. Only the tags, matrices and colours change, each by extension: at most two tags are appended, each a SetMatrix or SetColor. Both go through the coalescing setters, so a drawer already in that state is unchanged. |
| Stream.DrawLine | Assets/LeapMotion/Core/Scripts/Utils/RuntimeGizmoManager.cs:500-503 | Always appends exactly one DrawLine tag and that line, and nothing else. |
| Stream.SetWireMode | Assets/LeapMotion/Core/Scripts/Utils/RuntimeGizmoManager.cs:964-969 | A ToggleWireframe tag is appended exactly when the requested mode differs from the current one. Afterwards the drawer is in the requested mode. |
| Stream.DrawMeshInternal | Assets/LeapMotion/Core/Scripts/Utils/RuntimeGizmoManager.cs:955-962 | A null mesh throws NullMesh and records nothing. Otherwise one DrawMesh tag, the mesh and its matrix are appended. |
| Stream.RecordMesh | Assets/LeapMotion/Core/Scripts/Utils/RuntimeGizmoManager.cs:470-498 | DrawMesh and DrawWireMesh append a toggle only when the mode differs, then one DrawMesh tag with its mesh and matrix. A null mesh throws, keeps the toggle and appends no tag, mesh or matrix. The drawer ends in the requested mode either way. |
| Stream.DrawMesh | Assets/LeapMotion/Core/Scripts/Utils/RuntimeGizmoManager.cs:470-473 | Ends in solid mode. It throws exactly on a null mesh; otherwise the last tag is a DrawMesh and exactly that mesh and matrix are appended. |
| Stream.DrawWireMesh | Assets/LeapMotion/Core/Scripts/Utils/RuntimeGizmoManager.cs:485-488 | The same, ending in wire mode. |
| Stream.DrawCube | Assets/LeapMotion/Core/Scripts/Utils/RuntimeGizmoManager.cs:508-510 | Draws the assigned cube mesh in solid mode: it throws exactly when none is assigned, and otherwise appends a DrawMesh tag, that mesh and the given matrix. |
| Stream.DrawWireCube | Assets/LeapMotion/Core/Scripts/Utils/RuntimeGizmoManager.cs:515-517 | The same for the assigned wire-cube mesh, ending in wire mode. |
| Stream.DrawSphere | Assets/LeapMotion/Core/Scripts/Utils/RuntimeGizmoManager.cs:522-530 | Without a sphere mesh it throws its own error and records nothing, not even a toggle. Otherwise it succeeds as a solid mesh draw of the sphere mesh. |
| Stream.BeginGuard | Assets/LeapMotion/Core/Scripts/Utils/RuntimeGizmoManager.cs:388-390 | The guard snapshot becomes the current operation count; nothing else changes. |
| Stream.EndGuard | Assets/LeapMotion/Core/Scripts/Utils/RuntimeGizmoManager.cs:395-402 | A violation is reported exactly when the operation count exceeds the snapshot. The snapshot is always reset to -1, and nothing else changes. |
| Stream.UnguardedEndGuardReports | Assets/LeapMotion/Core/Scripts/Utils/RuntimeGizmoManager.cs:395-402 | Without a snapshot (-1), a violation is reported on every call, even on a new, empty drawer. |
| Stream.ClearAllGizmos | Assets/LeapMotion/Core/Scripts/Utils/RuntimeGizmoManager.cs:868-877 | The drawer is left blank and well formed: empty lists, unwired, identity matrix, white. The matrix stack, guard snapshot and meshes are kept. |
| Playback.PassFor | Assets/LeapMotion/Core/Scripts/Utils/RuntimeGizmoManager.cs:932-946 | The pass is one of the four. It is an unlit pass exactly when unlit is asked for, and a transparent pass exactly when the colour's alpha is below 1. |
| Playback.SetPass | Assets/LeapMotion/Core/Scripts/Utils/RuntimeGizmoManager.cs:932-953 | The pass becomes the one for the current colour. The material colour is set and a PassSet event is emitted only when the pass changes; otherwise nothing happens. |
| Playback.DrawAllGizmosToScreen | Assets/LeapMotion/Core/Scripts/Utils/RuntimeGizmoManager.cs:879-930 | The trace starts and ends by switching wireframe off; the end holds even after a failed read. Replay changes the drawer only in its current matrix and colour. |
| Playback.ReplayCursors | Assets/LeapMotion/Core/Scripts/Utils/RuntimeGizmoManager.cs:892-926 | On a well-formed stream no read fails in the first n tags. Each cursor has moved once per consuming tag; the matrix cursor moves once per SetMatrix and once per DrawMesh. |
| Playback.ReplayConsumesAll | Assets/LeapMotion/Core/Scripts/Utils/RuntimeGizmoManager.cs:881-926 | A well-formed stream replays without a failed read, and every payload is consumed exactly once: each cursor ends at the end of its list. |
| Playback.MaterialFollowsColor | Assets/LeapMotion/Core/Scripts/Utils/RuntimeGizmoManager.cs:898-900 | Whenever a pass is set during replay, the material holds the current colour. |
| Playback.SetColorForcesPass | Assets/LeapMotion/Core/Scripts/Utils/RuntimeGizmoManager.cs:898-900 | A replayed SetColor clears the pass, so the next line or mesh draw first sets the pass for the new colour and gives the material that colour. |
| Playback.ReplayExtends | Assets/LeapMotion/Core/Scripts/Utils/RuntimeGizmoManager.cs:892-926 | Appending to the lists does not change how an already cleanly replaying prefix replays. |
| Coherence.BlankCoherent | Assets/LeapMotion/Core/Scripts/Utils/RuntimeGizmoManager.cs:868-877 | An empty drawer is coherent: replay ends in its recorded matrix, colour and wire mode. |
| Coherence.SetColorCoherent | Assets/LeapMotion/Core/Scripts/Utils/RuntimeGizmoManager.cs:436-448 | The colour setter keeps a drawer coherent. |
| Coherence.SetMatrixCoherent | Assets/LeapMotion/Core/Scripts/Utils/RuntimeGizmoManager.cs:453-465 | The matrix setter keeps a drawer coherent. |
| Coherence.DrawLineCoherent | Assets/LeapMotion/Core/Scripts/Utils/RuntimeGizmoManager.cs:500-503 | Drawing a line keeps a drawer coherent. |
| Coherence.RecordMeshCoherent | Assets/LeapMotion/Core/Scripts/Utils/RuntimeGizmoManager.cs:470-498 | Drawing a mesh keeps a drawer coherent, and so does one that throws. |
| Coherence.PopMatrixCoherent | Assets/LeapMotion/Core/Scripts/Utils/RuntimeGizmoManager.cs:421-423 | Popping keeps a drawer coherent, whether it succeeds or throws. |
| Coherence.ResetCoherent | Assets/LeapMotion/Core/Scripts/Utils/RuntimeGizmoManager.cs:428-431 | Resetting matrix and colour keeps a drawer coherent. |
| Coherence.ReplayLeavesDrawer | Assets/LeapMotion/Core/Scripts/Utils/RuntimeGizmoManager.cs:887-899 | Replaying a coherent drawer does not fail, and it leaves the drawer exactly as it was, although the loop overwrites the current matrix and colour. |
| Commands.SetColorMatches | Assets/LeapMotion/Core/Scripts/Utils/RuntimeGizmoManager.cs:436-448 | On a coherent drawer, setting the colour changes what replay shows exactly as immediate mode would (not at all), and it changes the pen's colour. |
| Commands.SetMatrixMatches | Assets/LeapMotion/Core/Scripts/Utils/RuntimeGizmoManager.cs:453-465 | The same for setting the matrix. |
| Commands.PopMatches | Assets/LeapMotion/Core/Scripts/Utils/RuntimeGizmoManager.cs:421-423 | Popping throws exactly when immediate mode does, and otherwise restores the same matrix, without changing what is shown. |
| Commands.PushMatches | Assets/LeapMotion/Core/Scripts/Utils/RuntimeGizmoManager.cs:414-416 | Pushing keeps the drawer coherent, changes nothing that is shown, and leaves the same pen as immediate mode: the matrix saved on the stack. |
| Commands.LineMatches | Assets/LeapMotion/Core/Scripts/Utils/RuntimeGizmoManager.cs:500-503 | A recorded line adds exactly one draw to what replay shows: unlit, in the current colour, under the current matrix. This is the draw immediate mode makes. |
| Commands.MeshMatches | Assets/LeapMotion/Core/Scripts/Utils/RuntimeGizmoManager.cs:470-498 | A recorded mesh adds exactly the immediate-mode draw: unlit when wired and shaded otherwise, with the mesh's matrix composed after the current one. A null mesh throws in both. |
| Commands.SphereMatches | Assets/LeapMotion/Core/Scripts/Utils/RuntimeGizmoManager.cs:522-530 | A recorded sphere adds exactly the immediate-mode draw of the sphere mesh, solid and shaded, under the current matrix composed with the sphere's; without a sphere mesh both throw and nothing is drawn. |
| Commands.RecordMatchesReference | Assets/LeapMotion/Core/Scripts/Utils/RuntimeGizmoManager.cs:879-953 | Recording any call list into a coherent drawer keeps it coherent. Its replay shows the old draws followed by exactly the immediate-mode draws, in order. It ends in the same colour, matrix, wire mode and stack, and throws exactly when immediate mode does. |
| Commands.FreshRecordShowsReference | Assets/LeapMotion/Core/Scripts/Utils/RuntimeGizmoManager.cs:868-930 | On a cleared drawer, the screen gets exactly the immediate-mode draws of the recorded calls, starting from white, identity and solid mode, with no failed read. |
| Commands.ScreenShows | Assets/LeapMotion/Core/Scripts/Utils/RuntimeGizmoManager.cs:879-930 | Drawing a coherent drawer to the screen draws what its replay shows; the surrounding wireframe switches draw nothing, and no read fails. |
| Commands.RecordOnlyAppends | Assets/LeapMotion/Core/Scripts/Utils/RuntimeGizmoManager.cs:436-503 | Recording only ever extends the five lists, and keeps the guard snapshot and meshes. |
| Commands.GuardSeesRecording | Assets/LeapMotion/Core/Scripts/Utils/RuntimeGizmoManager.cs:388-402 | After calls made between BeginGuard and EndGuard, a violation is reported exactly when they recorded something. |
| Arcs.Truncate | Assets/LeapMotion/Core/Scripts/Utils/RuntimeGizmoManager.cs:658 | The float-to-int cast truncates toward zero: it rounds down for non-negative values and up for negative ones. |
| Arcs.DrawWireArc | Assets/LeapMotion/Core/Scripts/Utils/RuntimeGizmoManager.cs:654-664 | Appends exactly the truncated numCircleSegments × fraction DrawLine tags, or none when that is negative. Their lines are consecutive chords around the centre, and nothing else changes. |
| Arcs.ArcLinesAt | Assets/LeapMotion/Core/Scripts/Utils/RuntimeGizmoManager.cs:659-663 | Chord i of an arc joins the i-th and (i+1)-th rotation of the start radius, offset by the centre. |
| Arcs.FacingColor | Assets/LeapMotion/Core/Scripts/Utils/RuntimeGizmoManager.cs:565-586 | A segment keeps the original RGB. Its alpha is the full alpha in front of the camera, a tenth behind it, and 0.55 of it where the segment crosses between the two. |
| Arcs.CircleSegments | Assets/LeapMotion/Core/Scripts/Utils/RuntimeGizmoManager.cs:571 | The loop bound numSegments + 1 is computed in 32-bit arithmetic: it is numSegments + 1 when that is positive and fits, none when it is not positive, and none at int.MaxValue, where the sum wraps to int.MinValue. |
| Arcs.DrawCameraAwareWireCircle | Assets/LeapMotion/Core/Scripts/Utils/RuntimeGizmoManager.cs:555-594 | It appends `CircleSegments(numSegments)` segment lines from each radius to the next, not offset by any centre. Besides them it records only colour changes. It ends in the colour it started with, and equals recording the colour-then-line calls in order. |
| Meshes.AddQuad | Assets/LeapMotion/Core/Scripts/Utils/RuntimeGizmoManager.cs:325-335 | Keeps the earlier vertices and indices and appends four of each. The new indices number the new vertices in order, and the j-th new index names the j-th corner (normal ± axis1 ± axis2, halved). |
| Meshes.AddFaceQuad | Assets/LeapMotion/Core/Scripts/Utils/RuntimeGizmoManager.cs:260-263 | Each `addQuad` call of the cube loop appends the cube face whose outward normal is its first vector, keeping the earlier quads and the indices 0, 1, 2, ... in order. |
| Meshes.QuadIsFace | Assets/LeapMotion/Core/Scripts/Utils/RuntimeGizmoManager.cs:325-335 | For a unit normal and two other unit axes, the quad's corners lie on that face of the unit cube and go round it along cube edges. |
| Meshes.GenerateCube | Assets/LeapMotion/Core/Scripts/Utils/RuntimeGizmoManager.cs:256-266 | The cube mesh has quad topology, 24 vertices and the indices 0..23 in order. Quad q lies on the face with the q-th normal. |
| Meshes.CubeNormalsDistinct | Assets/LeapMotion/Core/Scripts/Utils/RuntimeGizmoManager.cs:259-263 | The six quads have six different normals. |
| Meshes.FaceIndex | Assets/LeapMotion/Core/Scripts/Utils/RuntimeGizmoManager.cs:259-263 | Every one of the six axis directions is the normal of some quad, so the quads cover all six faces. |
| Meshes.AddCorner | Assets/LeapMotion/Core/Scripts/Utils/RuntimeGizmoManager.cs:337-341 | Appends the three edges a–b, a–c, a–d as index pairs. |
| Meshes.GenerateWireCorners | Assets/LeapMotion/Core/Scripts/Utils/RuntimeGizmoManager.cs:278-284 | The eight corners are produced x-major from +½ to −½, in the listed order. |
| Meshes.GenerateWireCube | Assets/LeapMotion/Core/Scripts/Utils/RuntimeGizmoManager.cs:271-292 | The wire cube mesh has those eight corners and the 24 listed edge indices. |
| Meshes.WireCubeIsCubeEdges | Assets/LeapMotion/Core/Scripts/Utils/RuntimeGizmoManager.cs:286-289 | Each of the twelve index pairs names two corners that differ in exactly one coordinate: a cube edge. |
| Meshes.WireCubeEdgesDistinct | Assets/LeapMotion/Core/Scripts/Utils/RuntimeGizmoManager.cs:286-289 | No two of the twelve pairs are the same edge in either direction, so all twelve cube edges are drawn. |
| Meshes.GenerateWireSphere | Assets/LeapMotion/Core/Scripts/Utils/RuntimeGizmoManager.cs:303-317 | The mesh has line topology, 3R vertices and 6R indices, all below 3R. Pair p links vertex p to p+3 wrapped round 3R. The three vertices of step i lie in the xy, yz and xz planes. |
| Meshes.NextOnCircleIsMod | Assets/LeapMotion/Core/Scripts/Utils/RuntimeGizmoManager.cs:310-311 | The wrapped successor equals (p + 3) mod 3R. |
| Meshes.WireSphereLinesFollowCircles | Assets/LeapMotion/Core/Scripts/Utils/RuntimeGizmoManager.cs:309-316 | Every line joins a vertex to the next step's vertex on the same circle: the plane index p mod 3 is kept, and the step advances by one modulo R. |
| Manager.OnEnable | Assets/LeapMotion/Core/Scripts/Utils/RuntimeGizmoManager.cs:115-138 | Creates two blank drawers: the front guarded at 0, the back unguarded, both given the same meshes. The cube, wire cube and wire sphere are required to be present, as `generateMeshes` (:251-323) always builds them; the serialized sphere mesh (:38-40) may be missing. The ready flag is not touched. |
| Manager.EnabledCubesDraw | Assets/LeapMotion/Core/Scripts/Utils/RuntimeGizmoManager.cs:115-138 | After enabling, DrawCube and DrawWireCube on the back drawer never throw, and each records exactly the generated mesh. |
| Manager.EnableSound | Assets/LeapMotion/Core/Scripts/Utils/RuntimeGizmoManager.cs:123-126 | Enabling establishes the double-buffer invariant: both drawers coherent, the front guarded within its stream, the back unguarded. |
| Manager.OnDisable | Assets/LeapMotion/Core/Scripts/Utils/RuntimeGizmoManager.cs:140-145 | Both drawers are dropped and the ready flag is kept. |
| Manager.TryGetGizmoDrawer | Assets/LeapMotion/Core/Scripts/Utils/RuntimeGizmoManager.cs:66-74 | Succeeds exactly while enabled. It then hands out the back drawer at identity and white and leaves the front alone; a failure changes nothing. The back drawer only gains at most two SetMatrix/SetColor tags with their payloads; its lines, meshes, matrix stack, guard snapshot, wire mode and generated shapes are kept. |
| Manager.TryGetSound | Assets/LeapMotion/Core/Scripts/Utils/RuntimeGizmoManager.cs:66-74 | Handing out a drawer keeps the invariant and does not change what the back drawer shows. |
| Manager.DrawNow | Assets/LeapMotion/Core/Scripts/Utils/RuntimeGizmoManager.cs:66-74 | Drawing through a handed-out drawer never touches the front drawer or the ready flag, and is a no-op while disabled. |
| Manager.DrawNowSound | Assets/LeapMotion/Core/Scripts/Utils/RuntimeGizmoManager.cs:66-74 | Drawing through a handed-out drawer keeps the invariant, even when a call throws. |
| Manager.StaleWriteSound | Assets/LeapMotion/Core/Scripts/Utils/RuntimeGizmoManager.cs:388-402 | Writes through a stale reference to the front drawer keep the invariant: the guard stays within the grown stream. |
| Manager.StaleWrite | Assets/LeapMotion/Core/Scripts/Utils/RuntimeGizmoManager.cs:388-402 | Calls made through a kept reference to the front drawer leave the back drawer and the ready flag alone. They only extend the front's lists and keep its guard snapshot, so the guard still sees where they start. |
| Manager.Update | Assets/LeapMotion/Core/Scripts/Utils/RuntimeGizmoManager.cs:149-171 | After the producers run, the buffers are ready to swap and the front drawer is untouched. |
| Manager.RunProducers | Assets/LeapMotion/Core/Scripts/Utils/RuntimeGizmoManager.cs:152-167 | The producers' turns, each after a reset and with exceptions caught, only extend the back drawer's five lists, keep its guard snapshot and meshes, and change nothing when there are no producers. |
| Manager.UpdateSound | Assets/LeapMotion/Core/Scripts/Utils/RuntimeGizmoManager.cs:160-166 | Running the producers, each after a reset and with exceptions caught, keeps the invariant. |
| Manager.ProducersMatch | Assets/LeapMotion/Core/Scripts/Utils/RuntimeGizmoManager.cs:155-167 | The producers' turns extend what the back drawer shows by exactly their immediate-mode draws. Each turn starts from white and identity, and a throwing producer ends only its own turn. |
| Manager.OnPostRender | Assets/LeapMotion/Core/Scripts/Utils/RuntimeGizmoManager.cs:192-212 | Without a pending swap it always draws and reports nothing. Nothing is drawn exactly when a late subscriber throws; the swap stays pending and the front is untouched. Otherwise the swap clears the ready flag; the new back is blank and unguarded and keeps the old front's matrix stack and meshes, and the new front is guarded at its end. With no late subscribers the swap never throws, and the new front holds exactly the old back's five lists. |
| Manager.PostRenderSound | Assets/LeapMotion/Core/Scripts/Utils/RuntimeGizmoManager.cs:192-212 | Every post-render keeps the invariant: with or without a swap, and with or without a throwing late subscriber. |
| Manager.NotReadyRedraws | Assets/LeapMotion/Core/Scripts/Utils/RuntimeGizmoManager.cs:192-212 | Without a pending swap the manager is unchanged, and the screen gets exactly what the front drawer shows. |
| Manager.SwapShowsBack | Assets/LeapMotion/Core/Scripts/Utils/RuntimeGizmoManager.cs:192-212 | The swap throws exactly when the late calls do. Otherwise the screen gets the back drawer's draws followed by the late calls' immediate-mode draws. The new back is blank and unguarded, and the new front is guarded at its end. The new front shows exactly those draws, and the old back's tags, lines and meshes are prefixes of its lists. |
| Manager.LateCallsMatch | Assets/LeapMotion/Core/Scripts/Utils/RuntimeGizmoManager.cs:193-196 | The late calls, recorded into the reset back drawer, throw exactly when they do in immediate mode; otherwise the drawer stays coherent and unguarded, shows its old draws followed by their immediate-mode draws, and only its lists grow. |
| Manager.GuardReportsStaleWrites | Assets/LeapMotion/Core/Scripts/Utils/RuntimeGizmoManager.cs:198-206 | For a front drawer guarded at its end, the next swap reports stale writes exactly when they recorded something. |
| Manager.FrameShowsProducers | Assets/LeapMotion/Core/Scripts/Utils/RuntimeGizmoManager.cs:149-212 | From an empty back drawer, Update followed by a swap shows exactly the producers' immediate-mode draws, in order, with no failed read. |
| Wearables.Register | Assets/LeapPaint/Scripts/WearableManager.cs:46-51 | The list keeps its existing entries, followed by every UI in order, then every anchor in order. |
| Wearables.EvaluatePossiblePinch | Assets/LeapPaint/Scripts/WearableManager.cs:167-181 | Returns nothing exactly when no wearable is grabbable and strictly closer than the grab distance (and than the 10^6 sentinel). Otherwise it returns a qualifying wearable that is no further than every qualifying one and strictly nearer than every earlier one. |
| Wearables.ClosestIsNearest | Assets/LeapPaint/Scripts/WearableManager.cs:171-178 | The loop's running choice over any prefix is the nearest qualifying wearable of that prefix, with ties going to the earliest. |
| Wearables.NearestUnique | Assets/LeapPaint/Scripts/WearableManager.cs:171-178 | At most one answer meets that description, so the loop's answer is the only correct one. |
| Wearables.TryGrab | Assets/LeapPaint/Scripts/WearableManager.cs:183-199 | No target, or a refusal, changes nothing. A grab puts the target in the grabbing hand's slot; the other hand loses it if it held it and otherwise keeps what it held. |
| Wearables.GrabExclusive | Assets/LeapPaint/Scripts/WearableManager.cs:183-199 | No wearable is ever held by both hands: grabs keep this, and a successful grab restores it. |
| Wearables.OnPinchDetected | Assets/LeapPaint/Scripts/WearableManager.cs:134-139 | Every wearable hears the pinch first. Then the nearest candidate, if any, is offered the grab, and the slots change exactly as TryGrab says. |
| Wearables.OnPinchEnded | Assets/LeapPaint/Scripts/WearableManager.cs:141-148 | Every wearable hears the release, and the held wearable, if any, is released. The slots are not cleared. |
| Wearables.Edge | Assets/LeapPaint/Scripts/WearableManager.cs:55-62 | A flag notifies exactly once when it differs from the observation and otherwise not at all; it then equals the observation. |
| Wearables.UpdateFlags | Assets/LeapPaint/Scripts/WearableManager.cs:54-90 | After Update every stored flag equals the observed state. |
| Wearables.UpdateNoticesChanges | Assets/LeapPaint/Scripts/WearableManager.cs:54-90 | Update sends a notice exactly for each changed flag, saying the new state, in the order left tracking, right tracking, left palm, right palm. Their number is the number of changed flags, and none are sent exactly when nothing changed. |
| Wearables.UpdateIdempotent | Assets/LeapPaint/Scripts/WearableManager.cs:54-90 | A second Update with the same observations sends nothing and changes nothing. |
| Wearables.LeftTrackingFirst | Assets/LeapPaint/Scripts/WearableManager.cs:55-62 | When left-hand tracking changed, its notice comes first and carries the new state. |

## Left out

**Rendering, hosting and calls into code outside this model**

- Rendering: GL, `Graphics.DrawMeshNow`, materials and shaders are replaced by the event trace. The shader, the `gizmoShader` property, and the shader part of `assignDrawerParams` are not modelled.
- `OnValidate`'s check that the shader has four passes, and `Reset`, concern the editor and the shader only.
- Camera-type filtering in `onPostRender` and `_displayInGameView` depend on the host. A post-render is modelled for a camera that shows gizmos.
- `_enabledForBuild` is not modelled; the manager is always enabled by `OnEnable`.
- `Update`'s scene traversal and `areGizmosDisabled` belong to the scene graph. The enabled producers are given as a list, in traversal order.
- The `TryGetGizmoDrawer(GameObject, …)` overload differs from the modelled one only by the `areGizmosDisabled` test.
- The `OnPostRenderGizmos` subscribers are modelled as one optional call list.
- `Camera.onPostRender` subscription is event wiring.

**Float geometry**

- `DrawColliders`, `DrawCollider`, `DrawPosition`, `DrawRect`, `DrawWireSphere`, `DrawWireCircle`, `DrawWireCapsule`, `DrawLineWireCircle` and `RelativeTo` compose transforms, colliders and camera distances. Every recording primitive they use is modelled.
- The `DrawMesh`/`DrawWireMesh` overloads taking position, rotation and scale build a TRS matrix. Callers pass the matrix (`DrawCube`, `DrawWireCube`, `DrawSphere` likewise).
- Rotations, `SignedAngle`, normalisation and the camera pose become parameters of the arc helpers: a rotation function `rotate` and a facing test `isFront`.
- Matrices are symbolic: a matrix set on the drawer is an opaque value, and a mesh draw composes them with `Product`. Colours and vectors are reals, and Unity's approximate `==` on colours and matrices is exact equality.
- `Arcs.Truncate` models the float-to-int cast for values in `int` range only.
- Arcs.DrawWireArc: the segment count truncates the exact product numCircleSegments × fractionOfCircleToDraw, not C#'s single-precision product. The two can differ: 10 × 0.7f rounds to 7.0 in single precision and gives 7, where the exact product 6.99999988… gives 6. The conversion of large counts to float is not modelled either.
- `Meshes.GenerateWireSphere` takes the rim point of each step, half the cosine and sine of its angle, as a parameter (`rim`) instead of computing it.
- Mesh names, hide flags, normals, bounds and upload are not modelled.

**Wearables**

- Wearables are named by their index in `_wearables`, and the grab slots hold indices. If the same object were listed twice, `TryGrab` would compare it by reference and the model by position.
- `LastGrabbedByLeftHand`, `LastGrabbedByRightHand` and `GetCenterEyeAnchor` are getters and are not modelled.
- The pinch detector listeners wired in `Start` and the `IWearable` implementations are outside this model. What a wearable reports (`CanBeGrabbed`, its distance, what `BeGrabbedBy` returns) is an input.
- `Vector3.Distance` is an input.
- The notifications sent to every wearable are modelled as one `Broadcast` event each, not as one call per wearable.
- `_lastHandFacingCamera` is declared but never used.

**Preconditions and weaker contracts**

- Manager.Update: requires the buffers to exist. Unity calls `Update` only on an enabled component, and `OnDisable` is what clears them.
- Manager.OnPostRender: requires the buffers to exist. Subscriptions end in `OnDisable`.
- Manager.StaleWrite: requires the buffers to exist, for the same reason.
- Manager.OnEnable: requires the cube, wire cube and wire sphere meshes to be present, as `generateMeshes` always builds them. Meshes are opaque ids here, so nothing ties those ids to the vertex and index lists `Meshes.GenerateCube`, `Meshes.GenerateWireCube` and `Meshes.GenerateWireSphere` compute.
- Manager.DrawNow: states only what happens to the front drawer and the ready flag. What the back drawer shows afterwards is stated for recording in general by `Commands.RecordMatchesReference`.

**Behaviour kept as written**

- `EndGuard` without an earlier `BeginGuard` compares the operation count against -1, so it reports a violation on every call, even on an empty stream (`Stream.UnguardedEndGuardReports`). The manager always guards the front drawer first.
- `ClearAllGizmos` leaves the matrix stack as it is.
- `OnEnable` does not reset `_readyForSwap`.
- An exception from an `OnPostRenderGizmos` subscriber escapes `onPostRender`. It skips both the swap and the drawing, and leaves the swap pending.
- `DrawCameraAwareWireCircle` draws numSegments + 1 segments, one more than a full turn needs. The model keeps this count, computed with the same 32-bit wrap-around, so `int.MaxValue` segments draw nothing (`Arcs.CircleSegments`).
