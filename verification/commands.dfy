/**
 * What a producer does with a drawer, as a list of calls, and what it means:
 * an immediate-mode reference that draws each primitive straight away with
 * the current colour, matrix and wire mode. The main theorem says that
 * recording the calls into the stream and replaying the stream produces
 * exactly the reference's draws.
 */
module Commands {
  import opened Wrappers
  import opened Geometry
  import opened Stream
  import opened Playback
  import opened Coherence

  /** One call a producer makes on a drawer. */
  datatype Command =
    | SetColorCmd(c: Color)
    | SetMatrixCmd(m: Matrix)
    | PushCmd
    | PopCmd
    | LineCmd(a: Vec, b: Vec)
    | MeshCmd(wire: bool, mesh: Option<MeshId>, m: Matrix)
      /** `DrawSphere`, with the TRS matrix of its centre and radius. */
    | SphereCmd(m: Matrix)

  /** Performs one call on the drawer. */
  function Apply(d: Drawer, c: Command): Outcome
  {
    match c
    case SetColorCmd(col) => Done(SetColor(d, col))
    case SetMatrixCmd(m) => Done(SetMatrix(d, m))
    case PushCmd => Done(PushMatrix(d))
    case PopCmd => PopMatrix(d)
    case LineCmd(a, b) => Done(DrawLine(d, a, b))
    case MeshCmd(wire, mesh, m) => RecordMesh(d, wire, mesh, m)
    case SphereCmd(m) => DrawSphere(d, m)
  }

  /**
   * Performs the calls in order. An exception ends the producer's turn: the
   * calls after it are not made, and the drawer keeps what was recorded.
   */
  function Record(d: Drawer, cmds: seq<Command>): Outcome
    decreases |cmds|
  {
    if |cmds| == 0 then Done(d)
    else
      var o := Record(d, cmds[..|cmds| - 1]);
      if o.Threw? then o else Apply(o.drawer, cmds[|cmds| - 1])
  }

  /** Recording one more call is applying it to what the earlier calls left, unless one of them threw. */
  lemma RecordPrefixStep(d: Drawer, cmds: seq<Command>, j: nat)
    requires j < |cmds|
    ensures var o := Record(d, cmds[..j]);
      Record(d, cmds[..j + 1]) == if o.Threw? then o else Apply(o.drawer, cmds[j])
  {
    assert cmds[..j + 1][..j] == cmds[..j];
  }

  /** Recording two call lists one after the other is recording their concatenation. */
  lemma {:induction false} RecordAppend(d: Drawer, xs: seq<Command>, ys: seq<Command>)
    ensures var o := Record(d, xs);
      Record(d, xs + ys) == if o.Threw? then o else Record(o.drawer, ys)
    decreases |ys|
  {
    if ys == [] {
      assert xs + ys == xs;
    } else {
      assert (xs + ys)[..|xs + ys| - 1] == xs + ys[..|ys| - 1];
      RecordAppend(d, xs, ys[..|ys| - 1]);
    }
  }

  /** The drawing state of the immediate-mode reference. */
  datatype Pen = Pen(color: Color, matrix: Matrix, wire: bool, stack: seq<Matrix>, sphere: Option<MeshId>)

  function PenOf(d: Drawer): Pen
  {
    Pen(d.color, d.matrix, d.wireMode, d.stack, d.shapes.sphere)
  }

  /** The reference's state after some calls, the draws it made, and whether a call threw. */
  datatype Sketch = Sketch(pen: Pen, draws: seq<Event>, stopped: bool)

  /**
   * One call in immediate mode: a line is drawn unlit, a mesh unlit when
   * wired and shaded otherwise, both with the current colour as material
   * colour and the current matrix; a mesh's own matrix is composed after the
   * current one. A sphere is a solid mesh draw of the sphere mesh, and
   * without one it stops before the wire mode changes.
   */
  function Immediate(p: Pen, c: Command): Sketch
  {
    match c
    case SetColorCmd(col) => Sketch(p.(color := col), [], false)
    case SetMatrixCmd(m) => Sketch(p.(matrix := m), [], false)
    case PushCmd => Sketch(p.(stack := p.stack + [p.matrix]), [], false)
    case PopCmd =>
      if p.stack == [] then Sketch(p, [], true)
      else Sketch(p.(matrix := p.stack[|p.stack| - 1], stack := p.stack[..|p.stack| - 1]), [], false)
    case LineCmd(a, b) =>
      Sketch(p, [LineDrawn(PassFor(true, p.color), Some(p.color), p.matrix, Line(a, b))], false)
    case MeshCmd(wire, mesh, m) =>
      if mesh.None? then Sketch(p.(wire := wire), [], true)
      else
        Sketch(p.(wire := wire),
               [MeshDrawn(PassFor(wire, p.color), Some(p.color), mesh.value, Product(p.matrix, m), wire)], false)
    case SphereCmd(m) =>
      if p.sphere.None? then Sketch(p, [], true)
      else
        Sketch(p.(wire := false),
               [MeshDrawn(PassFor(false, p.color), Some(p.color), p.sphere.value, Product(p.matrix, m), false)], false)
  }

  /** The calls in immediate mode, stopping at the first that throws. */
  function Reference(p: Pen, cmds: seq<Command>): Sketch
    decreases |cmds|
  {
    if |cmds| == 0 then Sketch(p, [], false)
    else
      var s := Reference(p, cmds[..|cmds| - 1]);
      if s.stopped then s
      else
        var t := Immediate(s.pen, cmds[|cmds| - 1]);
        Sketch(t.pen, s.draws + t.draws, t.stopped)
  }

  predicate IsDraw(e: Event)
  {
    e.LineDrawn? || e.MeshDrawn?
  }

  /** The draw events of a trace, in order. */
  function Draws(t: seq<Event>): seq<Event>
  {
    if |t| == 0 then []
    else Draws(t[..|t| - 1]) + (if IsDraw(t[|t| - 1]) then [t[|t| - 1]] else [])
  }

  lemma DrawsSnoc(t: seq<Event>, e: Event)
    ensures Draws(t + [e]) == Draws(t) + (if IsDraw(e) then [e] else [])
  {
    assert (t + [e])[..|t|] == t;
  }

  /** What the display shows of a drawer: the draw events of its replay. */
  function Shows(d: Drawer): seq<Event>
  {
    Draws(Replay(d).trace)
  }

  /** The four facts that relate one call on a drawer to the same call in immediate mode. */
  predicate Matches(d: Drawer, o: Outcome, s: Sketch)
  {
    && Coherent(o.drawer)
    && PenOf(o.drawer) == s.pen
    && o.Threw? == s.stopped
    && Shows(o.drawer) == Shows(d) + s.draws
  }

  lemma SetColorMatches(d: Drawer, col: Color)
    requires Coherent(d)
    ensures Matches(d, Apply(d, SetColorCmd(col)), Immediate(PenOf(d), SetColorCmd(col)))
  {
    SetColorCoherent(d, col);
    var e := SetColor(d, col);
    if e != d {
      CoherentReplay(d);
      AppendOneStep(d, e, SetColorOp);
    }
  }

  lemma SetMatrixMatches(d: Drawer, m: Matrix)
    requires Coherent(d)
    ensures Matches(d, Apply(d, SetMatrixCmd(m)), Immediate(PenOf(d), SetMatrixCmd(m)))
  {
    SetMatrixCoherent(d, m);
    var e := SetMatrix(d, m);
    if e != d {
      CoherentReplay(d);
      AppendOneStep(d, e, SetMatrixOp);
    }
  }

  lemma PushMatches(d: Drawer)
    requires Coherent(d)
    ensures Matches(d, Apply(d, PushCmd), Immediate(PenOf(d), PushCmd))
  {
    PushMatrixCoherent(d);
    ReplaySameLists(d, PushMatrix(d), |d.ops|);
  }

  lemma PopMatches(d: Drawer)
    requires Coherent(d)
    ensures Matches(d, Apply(d, PopCmd), Immediate(PenOf(d), PopCmd))
  {
    if d.stack != [] {
      var top := d.stack[|d.stack| - 1];
      var p := d.(stack := d.stack[..|d.stack| - 1]);
      ReplaySameLists(d, p, |d.ops|);
      SameStreamCoherent(d, p);
      SetMatrixMatches(p, top);
      PopIsSetMatrix(d);
      MatchesSameShows(p, d, Apply(p, SetMatrixCmd(top)), Immediate(PenOf(p), SetMatrixCmd(top)));
    }
  }

  /** Popping is setting the matrix to the top of the stack on the drawer with the top removed. */
  lemma PopIsSetMatrix(d: Drawer)
    requires d.stack != []
    ensures var top := d.stack[|d.stack| - 1];
      var p := d.(stack := d.stack[..|d.stack| - 1]);
      && Apply(d, PopCmd) == Apply(p, SetMatrixCmd(top))
      && Immediate(PenOf(d), PopCmd) == Immediate(PenOf(p), SetMatrixCmd(top))
  {
  }

  /** `Matches` depends on the starting drawer only through what it shows. */
  lemma MatchesSameShows(p: Drawer, d: Drawer, o: Outcome, s: Sketch)
    requires Matches(p, o, s)
    requires Shows(p) == Shows(d)
    ensures Matches(d, o, s)
  {
  }

  lemma LineMatches(d: Drawer, a: Vec, b: Vec)
    requires Coherent(d)
    ensures Matches(d, Apply(d, LineCmd(a, b)), Immediate(PenOf(d), LineCmd(a, b)))
  {
    DrawLineCoherent(d, a, b);
    LineTagShows(d, a, b);
  }

  /** A line call shows one line, unlit, in the current colour and under the current matrix. */
  lemma LineTagShows(d: Drawer, a: Vec, b: Vec)
    requires Coherent(d)
    ensures Shows(DrawLine(d, a, b))
         == Shows(d) + [LineDrawn(PassFor(true, d.color), Some(d.color), d.matrix, Line(a, b))]
  {
    var r := Replay(d);
    CoherentReplay(d);
    MaterialFollowsColor(d, |d.ops|);
    var e := DrawLine(d, a, b);
    AppendOneStep(d, e, DrawLineOp);
    LineStepDraws(e, r, Line(a, b));
  }

  /** A DrawLine step whose line is available draws it with the replay's current state. */
  lemma LineStepDraws(e: Drawer, r: Replayer, line: Line)
    requires r.error.None? && MaterialCurrent(r)
    requires r.next.line < |e.lines| && e.lines[r.next.line] == line
    ensures Draws(Step(e, r, DrawLineOp).trace)
         == Draws(r.trace) + [LineDrawn(PassFor(true, r.color), Some(r.color), r.matrix, line)]
  {
    var s := SetPass(r, true);
    DrawsSnoc(r.trace, PassSet(s.pass, r.color));
    DrawsSnoc(s.trace, LineDrawn(s.pass, s.material, s.matrix, line));
  }

  /** A DrawMesh step whose mesh and matrix are available draws the mesh with the replay's current state. */
  lemma MeshStepDraws(e: Drawer, r: Replayer, id: MeshId, m: Matrix)
    requires r.error.None? && MaterialCurrent(r)
    requires r.next.mesh < |e.meshes| && e.meshes[r.next.mesh] == id
    requires r.next.matrix < |e.matrices| && e.matrices[r.next.matrix] == m
    ensures Draws(Step(e, r, DrawMeshOp).trace)
         == Draws(r.trace) + [MeshDrawn(PassFor(r.wire, r.color), Some(r.color), id, Product(r.matrix, m), r.wire)]
  {
    var s := SetPass(r, r.wire);
    DrawsSnoc(r.trace, PassSet(s.pass, r.color));
    DrawsSnoc(s.trace, MeshDrawn(s.pass, s.material, id, Product(s.matrix, m), s.wire));
  }

  /** The wire toggle a mesh call may record adds nothing to what is shown. */
  lemma WireToggleShowsNothing(d: Drawer, wire: bool)
    requires Coherent(d)
    ensures Coherent(SetWireMode(d, wire))
    ensures Shows(SetWireMode(d, wire)) == Shows(d)
  {
    SetWireModeCoherent(d, wire);
    var w := SetWireMode(d, wire);
    if w != d {
      AppendOneStep(d, w, ToggleWireframeOp);
      DrawsSnoc(Replay(d).trace, WireframeSet(!Replay(d).wire));
    }
  }

  /** The DrawMesh tag of a mesh call shows one mesh, under the current pass, colour and wire flag. */
  lemma MeshTagShows(w: Drawer, id: MeshId, m: Matrix)
    requires Coherent(w)
    ensures Shows(DrawMeshInternal(w, Some(id), m).drawer)
         == Shows(w) + [MeshDrawn(PassFor(w.wireMode, w.color), Some(w.color), id, Product(w.matrix, m), w.wireMode)]
  {
    var e := DrawMeshInternal(w, Some(id), m).drawer;
    var rw := Replay(w);
    CoherentReplay(w);
    MaterialFollowsColor(w, |w.ops|);
    AppendOneStep(w, e, DrawMeshOp);
    MeshStepDraws(e, rw, id, m);
  }

  lemma MeshTagMatches(w: Drawer, id: MeshId, m: Matrix)
    requires Coherent(w)
    ensures Matches(w, DrawMeshInternal(w, Some(id), m),
                    Sketch(PenOf(w), [MeshDrawn(PassFor(w.wireMode, w.color), Some(w.color), id,
                                                Product(w.matrix, m), w.wireMode)], false))
  {
    RecordMeshCoherent(w, w.wireMode, Some(id), m);
    MeshTagShows(w, id, m);
  }

  lemma MeshMatches(d: Drawer, wire: bool, mesh: Option<MeshId>, m: Matrix)
    requires Coherent(d)
    ensures Matches(d, Apply(d, MeshCmd(wire, mesh, m)), Immediate(PenOf(d), MeshCmd(wire, mesh, m)))
  {
    WireToggleShowsNothing(d, wire);
    var w := SetWireMode(d, wire);
    if mesh.Some? {
      MeshTagMatches(w, mesh.value, m);
    }
  }

  /**
   * A sphere call matches immediate mode: without a sphere mesh both throw
   * and nothing changes; with one it is a solid mesh call.
   */
  lemma SphereMatches(d: Drawer, m: Matrix)
    requires Coherent(d)
    ensures Matches(d, Apply(d, SphereCmd(m)), Immediate(PenOf(d), SphereCmd(m)))
  {
    if d.shapes.sphere.Some? {
      MeshMatches(d, false, d.shapes.sphere, m);
    } else {
      assert Shows(d) + [] == Shows(d);
    }
  }

  /** One call keeps coherence and extends the replayed draws by its immediate-mode draws. */
  lemma ApplyMatchesImmediate(d: Drawer, c: Command)
    requires Coherent(d)
    ensures Matches(d, Apply(d, c), Immediate(PenOf(d), c))
  {
    match c
    case SetColorCmd(col) => SetColorMatches(d, col);
    case SetMatrixCmd(m) => SetMatrixMatches(d, m);
    case PushCmd => PushMatches(d);
    case PopCmd => PopMatches(d);
    case LineCmd(a, b) => LineMatches(d, a, b);
    case MeshCmd(wire, mesh, m) => MeshMatches(d, wire, mesh, m);
    case SphereCmd(m) => SphereMatches(d, m);
  }

  /**
   * Recording then replaying is immediate-mode drawing: recording calls onto
   * a coherent drawer keeps it coherent, leaves it in the reference's state,
   * throws exactly when the reference stops, and extends what the replay
   * shows by exactly the reference's draws, in order.
   */
  lemma {:induction false} RecordMatchesReference(d: Drawer, cmds: seq<Command>)
    requires Coherent(d)
    ensures Matches(d, Record(d, cmds), Reference(PenOf(d), cmds))
    decreases |cmds|
  {
    if |cmds| > 0 {
      var pre := cmds[..|cmds| - 1];
      RecordMatchesReference(d, pre);
      MatchesExtend(d, Record(d, pre), Reference(PenOf(d), pre), cmds[|cmds| - 1]);
    }
  }

  /** One more call keeps recording and the reference in step. */
  lemma MatchesExtend(d: Drawer, o: Outcome, s: Sketch, c: Command)
    requires Matches(d, o, s)
    ensures Matches(d, if o.Threw? then o else Apply(o.drawer, c),
                    if s.stopped then s else Sketch(Immediate(s.pen, c).pen, s.draws + Immediate(s.pen, c).draws,
                                                    Immediate(s.pen, c).stopped))
  {
    if o.Done? {
      ApplyMatchesImmediate(o.drawer, c);
      var t := Immediate(s.pen, c);
      assert Shows(d) + s.draws + t.draws == Shows(d) + (s.draws + t.draws);
    }
  }

  /**
   * The frame-level statement: on a fresh or cleared drawer, what
   * `DrawAllGizmosToScreen` draws is exactly the reference's draws of the
   * recorded calls, starting from white, identity and solid mode.
   */
  lemma FreshRecordShowsReference(d: Drawer, cmds: seq<Command>)
    requires Blank(d)
    ensures var o := Record(d, cmds);
      && Draws(DrawAllGizmosToScreen(o.drawer).trace) == Reference(Pen(White, Identity, false, d.stack, d.shapes.sphere), cmds).draws
      && DrawAllGizmosToScreen(o.drawer).error.None?
  {
    BlankCoherent(d);
    RecordMatchesReference(d, cmds);
    assert Shows(d) == [];
    ScreenShows(Record(d, cmds).drawer);
  }

  /** Drawing a coherent drawer to the screen draws what its replay shows, without a failed read. */
  lemma ScreenShows(e: Drawer)
    requires Coherent(e)
    ensures Draws(DrawAllGizmosToScreen(e).trace) == Shows(e)
    ensures DrawAllGizmosToScreen(e).error.None?
  {
    var t := Replay(e).trace;
    CoherentReplay(e);
    DrawsSnoc([WireframeSet(false)] + t, WireframeSet(false));
    DrawsPrepend(WireframeSet(false), t);
  }

  lemma {:induction false} DrawsPrepend(e: Event, t: seq<Event>)
    requires !IsDraw(e)
    ensures Draws([e] + t) == Draws(t)
    decreases |t|
  {
    if |t| > 0 {
      var t' := t[..|t| - 1];
      assert ([e] + t)[..|[e] + t| - 1] == [e] + t';
      DrawsPrepend(e, t');
    } else {
      assert Draws([e]) == Draws([]) + [];
    }
  }

  /** Recording only appends: the lists grow by extension and the guard snapshot and shapes stay. */
  lemma {:induction false} RecordOnlyAppends(d: Drawer, cmds: seq<Command>)
    ensures var e := Record(d, cmds).drawer;
      && d.ops <= e.ops && d.matrices <= e.matrices && d.colors <= e.colors
      && d.lines <= e.lines && d.meshes <= e.meshes
      && e.guardCount == d.guardCount && e.shapes == d.shapes
    decreases |cmds|
  {
    if |cmds| > 0 {
      RecordOnlyAppends(d, cmds[..|cmds| - 1]);
      var o := Record(d, cmds[..|cmds| - 1]);
      if o.Done? {
        ApplyOnlyAppends(o.drawer, cmds[|cmds| - 1]);
      }
    }
  }

  lemma ApplyOnlyAppends(d: Drawer, c: Command)
    ensures var e := Apply(d, c).drawer;
      && d.ops <= e.ops && d.matrices <= e.matrices && d.colors <= e.colors
      && d.lines <= e.lines && d.meshes <= e.meshes
      && e.guardCount == d.guardCount && e.shapes == d.shapes
  {
  }

  /**
   * A guard around a producer's calls reports a violation exactly when the
   * calls recorded at least one operation.
   */
  lemma GuardSeesRecording(d: Drawer, cmds: seq<Command>)
    ensures var e := Record(BeginGuard(d), cmds).drawer;
      EndGuard(e).violated <==> e.ops != d.ops
  {
    RecordOnlyAppends(BeginGuard(d), cmds);
  }
}
