/**
 * The recording side of `RuntimeGizmoDrawer`: an append-only command stream
 * held as five parallel sequences (operation tags, matrices, colours, lines,
 * meshes) together with the drawer's current matrix, colour, matrix stack,
 * wire mode and guard snapshot. Every operation is a pure state transformer.
 */
module Stream {
  import opened Wrappers
  import opened Geometry

  /** The operation tags (`OperationType`). */
  datatype Op = SetMatrixOp | ToggleWireframeOp | SetColorOp | DrawLineOp | DrawMeshOp

  /** The meshes the manager assigns to every drawer (`assignDrawerParams`). */
  datatype Shapes = Shapes(cube: Option<MeshId>, wireCube: Option<MeshId>,
                           sphere: Option<MeshId>, wireSphere: Option<MeshId>)

  const NoShapes := Shapes(None, None, None, None)

  /** One drawer. `guardCount` is `_operationCountOnGuard`, -1 when no guard is active. */
  datatype Drawer = Drawer(
    ops: seq<Op>,
    matrices: seq<Matrix>,
    colors: seq<Color>,
    lines: seq<Line>,
    meshes: seq<MeshId>,
    color: Color,
    matrix: Matrix,
    stack: seq<Matrix>,
    wireMode: bool,
    guardCount: int,
    shapes: Shapes)

  /** The exceptions a recording call can raise. */
  datatype Error = EmptyMatrixStack | NullMesh | NoSphereMesh

  /**
   * The result of a call that may throw. A C# exception does not undo the
   * mutations made before it, so a thrown call still carries the drawer as it
   * was left.
   */
  datatype Outcome = Done(drawer: Drawer) | Threw(drawer: Drawer, error: Error)

  /** Number of tags of kind `k` in `ops`. */
  function Count(ops: seq<Op>, k: Op): nat
  {
    if |ops| == 0 then 0
    else Count(ops[..|ops| - 1], k) + (if ops[|ops| - 1] == k then 1 else 0)
  }

  lemma CountSnoc(ops: seq<Op>, op: Op, k: Op)
    ensures Count(ops + [op], k) == Count(ops, k) + (if op == k then 1 else 0)
  {
    assert (ops + [op])[..|ops|] == ops;
  }

  /**
   * Every tag has exactly one payload in its side list: one colour per
   * SetColor, one line per DrawLine, one mesh per DrawMesh, and one matrix per
   * SetMatrix or DrawMesh.
   */
  predicate WellFormed(d: Drawer)
  {
    && |d.colors| == Count(d.ops, SetColorOp)
    && |d.lines| == Count(d.ops, DrawLineOp)
    && |d.meshes| == Count(d.ops, DrawMeshOp)
    && |d.matrices| == Count(d.ops, SetMatrixOp) + Count(d.ops, DrawMeshOp)
  }

  /** No operations or payloads, unwired, identity matrix and white colour. */
  predicate Blank(d: Drawer)
  {
    && d.ops == [] && d.matrices == [] && d.colors == [] && d.lines == [] && d.meshes == []
    && !d.wireMode && d.matrix == Identity && d.color == White
  }

  /** `new RuntimeGizmoDrawer()`. */
  function NewDrawer(): (d: Drawer)
    ensures Blank(d) && WellFormed(d)
    ensures d.stack == [] && d.guardCount == -1 && d.shapes == NoShapes
  {
    Drawer([], [], [], [], [], White, Identity, [], false, -1, NoShapes)
  }

  /** `assignDrawerParams`, for one drawer. */
  function AssignShapes(d: Drawer, s: Shapes): (e: Drawer)
    ensures e.shapes == s
    ensures e.(shapes := d.shapes) == d
  {
    d.(shapes := s)
  }

  /** The `color` setter: records a SetColor only when the colour really changes. */
  function SetColor(d: Drawer, c: Color): (e: Drawer)
    ensures e.color == c
    ensures d.color == c ==> e == d
    ensures d.color != c ==>
      && e.ops == d.ops + [SetColorOp]
      && e.colors == d.colors + [c]
      && e == d.(ops := e.ops, colors := e.colors, color := c)
  {
    if d.color == c then d
    else d.(ops := d.ops + [SetColorOp], colors := d.colors + [c], color := c)
  }

  /** The `matrix` setter: records a SetMatrix only when the matrix really changes. */
  function SetMatrix(d: Drawer, m: Matrix): (e: Drawer)
    ensures e.matrix == m
    ensures d.matrix == m ==> e == d
    ensures d.matrix != m ==>
      && e.ops == d.ops + [SetMatrixOp]
      && e.matrices == d.matrices + [m]
      && e == d.(ops := e.ops, matrices := e.matrices, matrix := m)
  {
    if d.matrix == m then d
    else d.(ops := d.ops + [SetMatrixOp], matrices := d.matrices + [m], matrix := m)
  }

  /** `PushMatrix`: saves the current matrix; records nothing. */
  function PushMatrix(d: Drawer): (e: Drawer)
    ensures e.stack == d.stack + [d.matrix]
    ensures e.(stack := d.stack) == d
  {
    d.(stack := d.stack + [d.matrix])
  }

  /**
   * `PopMatrix`: `Stack.Pop` throws on an empty stack before the setter runs;
   * otherwise the popped matrix goes through the coalescing setter.
   */
  function PopMatrix(d: Drawer): (o: Outcome)
    ensures o.Threw? <==> d.stack == []
    ensures o.Threw? ==> o.drawer == d && o.error == EmptyMatrixStack
    ensures o.Done? ==>
      && o.drawer.matrix == d.stack[|d.stack| - 1]
      && o.drawer.stack == d.stack[..|d.stack| - 1]
      && o.drawer == SetMatrix(d.(stack := o.drawer.stack), o.drawer.matrix)
  {
    if d.stack == [] then Threw(d, EmptyMatrixStack)
    else
      var top := d.stack[|d.stack| - 1];
      Done(SetMatrix(d.(stack := d.stack[..|d.stack| - 1]), top))
  }

  /** `ResetMatrixAndColorState`: identity matrix, then white, both through the setters. */
  function ResetMatrixAndColorState(d: Drawer): (e: Drawer)
    ensures e.matrix == Identity && e.color == White
    ensures e == d.(ops := e.ops, matrices := e.matrices, colors := e.colors, matrix := Identity, color := White)
    ensures d.ops <= e.ops && d.matrices <= e.matrices && d.colors <= e.colors && |e.ops| <= |d.ops| + 2
    ensures forall i | |d.ops| <= i < |e.ops| :: e.ops[i] == SetMatrixOp || e.ops[i] == SetColorOp
    ensures d.matrix == Identity && d.color == White ==> e == d
  {
    SetColor(SetMatrix(d, Identity), White)
  }

  /** `DrawLine`: always records one DrawLine tag and one line. */
  function DrawLine(d: Drawer, a: Vec, b: Vec): (e: Drawer)
    ensures e.ops == d.ops + [DrawLineOp]
    ensures e.lines == d.lines + [Line(a, b)]
    ensures e == d.(ops := e.ops, lines := e.lines)
  {
    d.(ops := d.ops + [DrawLineOp], lines := d.lines + [Line(a, b)])
  }

  /** `setWireMode`: records a ToggleWireframe only on a real transition. */
  function SetWireMode(d: Drawer, wire: bool): (e: Drawer)
    ensures e.wireMode == wire
    ensures d.wireMode == wire ==> e == d
    ensures d.wireMode != wire ==> e == d.(ops := d.ops + [ToggleWireframeOp], wireMode := wire)
  {
    if d.wireMode != wire then d.(ops := d.ops + [ToggleWireframeOp], wireMode := wire) else d
  }

  /** `drawMeshInternal`: a null mesh throws before anything is recorded. */
  function DrawMeshInternal(d: Drawer, mesh: Option<MeshId>, m: Matrix): (o: Outcome)
    ensures o.Threw? <==> mesh.None?
    ensures o.Threw? ==> o.drawer == d && o.error == NullMesh
    ensures o.Done? ==> o.drawer == d.(ops := d.ops + [DrawMeshOp],
                                       meshes := d.meshes + [mesh.value],
                                       matrices := d.matrices + [m])
  {
    match mesh
    case None => Threw(d, NullMesh)
    case Some(id) =>
      Done(d.(ops := d.ops + [DrawMeshOp], meshes := d.meshes + [id], matrices := d.matrices + [m]))
  }

  /**
   * The shared body of `DrawMesh` (wire = false) and `DrawWireMesh`
   * (wire = true): first the wire-mode toggle if the mode differs, then one
   * DrawMesh tag with one mesh and one matrix payload. A null mesh throws after
   * the toggle, which stays recorded.
   */
  function RecordMesh(d: Drawer, wire: bool, mesh: Option<MeshId>, m: Matrix): (o: Outcome)
    ensures o.drawer.wireMode == wire
    ensures o.Threw? <==> mesh.None?
    ensures o.Threw? ==> o.error == NullMesh
    ensures var toggle := if d.wireMode != wire then [ToggleWireframeOp] else [];
      && o.drawer.ops == d.ops + toggle + (if mesh.Some? then [DrawMeshOp] else [])
      && o.drawer.meshes == d.meshes + (if mesh.Some? then [mesh.value] else [])
      && o.drawer.matrices == d.matrices + (if mesh.Some? then [m] else [])
    ensures o.drawer == d.(ops := o.drawer.ops, meshes := o.drawer.meshes,
                           matrices := o.drawer.matrices, wireMode := wire)
  {
    DrawMeshInternal(SetWireMode(d, wire), mesh, m)
  }

  /** `DrawMesh(mesh, matrix)`. */
  function DrawMesh(d: Drawer, mesh: Option<MeshId>, m: Matrix): (o: Outcome)
    ensures o == RecordMesh(d, false, mesh, m)
    ensures o.drawer.wireMode == false
    ensures o.Threw? <==> mesh.None?
    ensures o.Done? ==>
      && o.drawer.ops[|o.drawer.ops| - 1] == DrawMeshOp
      && o.drawer.meshes == d.meshes + [mesh.value] && o.drawer.matrices == d.matrices + [m]
  {
    RecordMesh(d, false, mesh, m)
  }

  /** `DrawWireMesh(mesh, matrix)`. */
  function DrawWireMesh(d: Drawer, mesh: Option<MeshId>, m: Matrix): (o: Outcome)
    ensures o == RecordMesh(d, true, mesh, m)
    ensures o.drawer.wireMode == true
    ensures o.Threw? <==> mesh.None?
    ensures o.Done? ==>
      && o.drawer.ops[|o.drawer.ops| - 1] == DrawMeshOp
      && o.drawer.meshes == d.meshes + [mesh.value] && o.drawer.matrices == d.matrices + [m]
  {
    RecordMesh(d, true, mesh, m)
  }

  /** `DrawCube`: the assigned cube mesh under the caller's TRS matrix `t`. */
  function DrawCube(d: Drawer, t: Matrix): (o: Outcome)
    ensures o == RecordMesh(d, false, d.shapes.cube, t)
    ensures o.drawer.wireMode == false
    ensures o.Threw? <==> d.shapes.cube.None?
    ensures o.Done? ==>
      && o.drawer.ops[|o.drawer.ops| - 1] == DrawMeshOp
      && o.drawer.meshes == d.meshes + [d.shapes.cube.value] && o.drawer.matrices == d.matrices + [t]
  {
    DrawMesh(d, d.shapes.cube, t)
  }

  /** `DrawWireCube`: the assigned wire-cube mesh under the caller's TRS matrix `t`. */
  function DrawWireCube(d: Drawer, t: Matrix): (o: Outcome)
    ensures o == RecordMesh(d, true, d.shapes.wireCube, t)
    ensures o.drawer.wireMode == true
    ensures o.Threw? <==> d.shapes.wireCube.None?
    ensures o.Done? ==>
      && o.drawer.ops[|o.drawer.ops| - 1] == DrawMeshOp
      && o.drawer.meshes == d.meshes + [d.shapes.wireCube.value] && o.drawer.matrices == d.matrices + [t]
  {
    DrawWireMesh(d, d.shapes.wireCube, t)
  }

  /**
   * `DrawSphere`: a missing sphere mesh throws its own error before any wire
   * toggle is recorded, unlike the generic null-mesh failure.
   */
  function DrawSphere(d: Drawer, t: Matrix): (o: Outcome)
    ensures d.shapes.sphere.None? ==> o == Threw(d, NoSphereMesh)
    ensures d.shapes.sphere.Some? ==> o.Done? && o == RecordMesh(d, false, d.shapes.sphere, t)
  {
    if d.shapes.sphere.None? then Threw(d, NoSphereMesh)
    else DrawMesh(d, d.shapes.sphere, t)
  }

  /** `BeginGuard`: snapshots the operation count. */
  function BeginGuard(d: Drawer): (e: Drawer)
    ensures e.guardCount == |d.ops|
    ensures e.(guardCount := d.guardCount) == d
  {
    d.(guardCount := |d.ops|)
  }

  /** The drawer after `EndGuard`, and whether it logged a violation. */
  datatype GuardReport = GuardReport(drawer: Drawer, violated: bool)

  /**
   * `EndGuard`: a violation is reported exactly when the operation count
   * exceeds the snapshot; the snapshot is always reset to -1.
   */
  function EndGuard(d: Drawer): (g: GuardReport)
    ensures g.violated <==> |d.ops| > d.guardCount
    ensures g.drawer.guardCount == -1
    ensures g.drawer.(guardCount := d.guardCount) == d
  {
    GuardReport(d.(guardCount := -1), |d.ops| > d.guardCount)
  }

  /**
   * Without an earlier `BeginGuard` the snapshot is -1, so `EndGuard`
   * reports a violation on every call, even on an empty stream.
   */
  lemma UnguardedEndGuardReports(d: Drawer)
    requires d.guardCount == -1
    ensures EndGuard(d).violated
    ensures EndGuard(NewDrawer()).violated
  {
  }

  /**
   * `ClearAllGizmos`: empties the stream and resets wire mode, matrix and
   * colour. The matrix stack, the guard snapshot and the shapes are kept.
   */
  function ClearAllGizmos(d: Drawer): (e: Drawer)
    ensures Blank(e) && WellFormed(e)
    ensures e.stack == d.stack && e.guardCount == d.guardCount && e.shapes == d.shapes
  {
    d.(ops := [], matrices := [], colors := [], lines := [], meshes := [],
       wireMode := false, matrix := Identity, color := White)
  }

  /** Pushing then popping gives back exactly the drawer pushed from. */
  lemma PushThenPop(d: Drawer)
    ensures PopMatrix(PushMatrix(d)) == Done(d)
  {
    var p := PushMatrix(d);
    assert p.stack[..|p.stack| - 1] == d.stack;
  }

  /**
   * Whatever matrix is set between a push and the matching pop, the pop
   * restores the pushed matrix and the stack.
   */
  lemma PopRestoresPushed(d: Drawer, m: Matrix)
    ensures var o := PopMatrix(SetMatrix(PushMatrix(d), m));
      o.Done? && o.drawer.matrix == d.matrix && o.drawer.stack == d.stack
  {
    var p := SetMatrix(PushMatrix(d), m);
    assert p.stack == d.stack + [d.matrix];
    assert p.stack[..|p.stack| - 1] == d.stack;
  }
}
