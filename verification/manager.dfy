/**
 * The double-buffer coordinator of `RuntimeGizmoManager`. Producers record
 * into the back drawer during `Update`; after a camera renders, the buffers
 * are swapped (once per `Update`), the new front drawer is guarded against
 * writes, the old front is unguarded, checked and cleared, and the front
 * drawer is replayed to the screen. The drawers are the manager's static
 * fields; `null` is `None`.
 */
module Manager {
  import opened Wrappers
  import opened Geometry
  import opened Stream
  import opened Playback
  import opened Coherence
  import opened Commands

  /** `_frontDrawer` and `_backDrawer`, both set while the manager is enabled. */
  datatype Buffers = Buffers(front: Drawer, back: Drawer)

  /** The manager: its drawers (None while disabled) and `_readyForSwap`. */
  datatype Manager = Manager(buffers: Option<Buffers>, readyForSwap: bool)

  /** A component's `OnDrawRuntimeGizmos`, as the calls it makes on the drawer it is handed. */
  type Producer = seq<Command>

  /** The result of `TryGetGizmoDrawer`: the manager afterwards, and whether a drawer was handed out. */
  datatype Got = Got(manager: Manager, ok: bool)

  /**
   * What one `onPostRender` call leaves: the manager, what was drawn to the
   * screen (None when a late producer threw before the drawing), whether the
   * swap's `EndGuard` found writes to the old front drawer, and the
   * exception a late producer let escape.
   */
  datatype Frame = Frame(manager: Manager, shown: Option<Shown>, staleWrites: bool, thrown: Option<Error>)

  /**
   * What the coordinator keeps true between calls: both drawers are
   * coherent, the front drawer is guarded at some point of its stream, and
   * the back drawer is unguarded.
   */
  predicate Sound(m: Manager)
  {
    m.buffers.Some? ==>
      var b := m.buffers.value;
      && Coherent(b.front) && Coherent(b.back)
      && 0 <= b.front.guardCount <= |b.front.ops|
      && b.back.guardCount == -1
  }

  /**
   * Meshes as `generateMeshes` leaves them: the cube, wire cube and wire
   * sphere are always built, so never null. The sphere is the serialized
   * `_sphereMesh` and may be missing.
   */
  predicate Generated(shapes: Shapes)
  {
    shapes.cube.Some? && shapes.wireCube.Some? && shapes.wireSphere.Some?
  }

  /**
   * `OnEnable`: two new drawers, the front one guarded, both given the
   * generated meshes. `_readyForSwap` is left as it was.
   */
  function OnEnable(m: Manager, shapes: Shapes): (n: Manager)
    requires Generated(shapes)
    ensures n.buffers.Some? && n.readyForSwap == m.readyForSwap
    ensures var b := n.buffers.value;
      && Blank(b.front) && Blank(b.back)
      && b.front.guardCount == 0 && b.back.guardCount == -1
      && b.front.shapes == shapes && b.back.shapes == shapes
  {
    var front := BeginGuard(NewDrawer());
    Manager(Some(Buffers(AssignShapes(front, shapes), AssignShapes(NewDrawer(), shapes))), m.readyForSwap)
  }

  /** `OnDisable`: both drawers are dropped. */
  function OnDisable(m: Manager): (n: Manager)
    ensures n.buffers.None? && n.readyForSwap == m.readyForSwap
  {
    m.(buffers := None)
  }

  /**
   * `TryGetGizmoDrawer`: fails while disabled; otherwise hands out the back
   * drawer after resetting its matrix to identity and its colour to white.
   */
  function TryGetGizmoDrawer(m: Manager): (g: Got)
    ensures g.ok <==> m.buffers.Some?
    ensures !g.ok ==> g.manager == m
    ensures g.ok ==>
      && g.manager.readyForSwap == m.readyForSwap
      && g.manager.buffers.Some?
      && g.manager.buffers.value.front == m.buffers.value.front
      && g.manager.buffers.value.back.matrix == Identity
      && g.manager.buffers.value.back.color == White
    ensures g.ok ==>
      var d := m.buffers.value.back;
      var e := g.manager.buffers.value.back;
      && e == d.(ops := e.ops, matrices := e.matrices, colors := e.colors, matrix := Identity, color := White)
      && d.ops <= e.ops && d.matrices <= e.matrices && d.colors <= e.colors
      && |e.ops| <= |d.ops| + 2
      && (forall i | |d.ops| <= i < |e.ops| :: e.ops[i] == SetMatrixOp || e.ops[i] == SetColorOp)
  {
    match m.buffers
    case None => Got(m, false)
    case Some(b) => Got(m.(buffers := Some(b.(back := ResetMatrixAndColorState(b.back)))), true)
  }

  /**
   * A caller that obtains a drawer with `TryGetGizmoDrawer` and makes its
   * calls on it at once. An exception reaches the caller; what was recorded
   * before it stays in the back drawer.
   */
  function DrawNow(m: Manager, calls: Producer): (n: Manager)
    ensures m.buffers.None? ==> n == m
    ensures m.buffers.Some? ==> n.buffers.Some? && n.buffers.value.front == m.buffers.value.front
    ensures n.readyForSwap == m.readyForSwap
  {
    var g := TryGetGizmoDrawer(m);
    if !g.ok then m
    else
      var b := g.manager.buffers.value;
      g.manager.(buffers := Some(b.(back := Record(b.back, calls).drawer)))
  }

  /**
   * A caller that kept a reference to a drawer from an earlier frame and
   * draws with it after the swap made that drawer the front one.
   */
  function StaleWrite(m: Manager, calls: Producer): (n: Manager)
    requires m.buffers.Some?
    ensures n.buffers.Some? && n.buffers.value.back == m.buffers.value.back
    ensures n.readyForSwap == m.readyForSwap
    ensures var d := m.buffers.value.front;
      var e := n.buffers.value.front;
      && d.ops <= e.ops && d.lines <= e.lines && d.meshes <= e.meshes
      && e.guardCount == d.guardCount && e.shapes == d.shapes
  {
    var b := m.buffers.value;
    RecordOnlyAppends(b.front, calls);
    m.(buffers := Some(b.(front := Record(b.front, calls).drawer)))
  }

  /**
   * The producers' turns in `Update`: before each, the back drawer's matrix
   * and colour are reset; an exception a producer throws is caught and
   * logged, and the next producer goes on with the drawer as it was left.
   */
  function RunProducers(d: Drawer, ps: seq<Producer>): (e: Drawer)
    ensures d.ops <= e.ops && d.matrices <= e.matrices && d.colors <= e.colors
    ensures d.lines <= e.lines && d.meshes <= e.meshes
    ensures e.guardCount == d.guardCount && e.shapes == d.shapes
    ensures ps == [] ==> e == d
    decreases |ps|
  {
    if |ps| == 0 then d
    else
      var r := ResetMatrixAndColorState(RunProducers(d, ps[..|ps| - 1]));
      RecordOnlyAppends(r, ps[|ps| - 1]);
      Record(r, ps[|ps| - 1]).drawer
  }

  /**
   * `Update`: every enabled producer draws into the back drawer, then the
   * buffers are marked ready to swap. The front drawer is not touched.
   */
  function Update(m: Manager, ps: seq<Producer>): (n: Manager)
    requires m.buffers.Some?
    ensures n.readyForSwap
    ensures n.buffers.Some? && n.buffers.value.front == m.buffers.value.front
  {
    var b := m.buffers.value;
    Manager(Some(b.(back := RunProducers(b.back, ps))), true)
  }

  /**
   * `onPostRender` for a camera that shows gizmos. `late` is the calls of the
   * `OnPostRenderGizmos` subscribers (None when there are none). When a swap
   * is due, the late calls go into the back drawer, the drawers swap, the
   * new front is guarded, the new back is unguarded (reporting writes made
   * to it while it was the front) and cleared. An exception from a late
   * subscriber is not caught: it ends the call before the swap and before
   * anything is drawn. Otherwise the front drawer is drawn to the screen.
   */
  function OnPostRender(m: Manager, late: Option<Producer>): (f: Frame)
    requires m.buffers.Some?
    ensures f.manager.buffers.Some?
    ensures !m.readyForSwap ==> f.thrown.None? && !f.staleWrites && f.shown.Some?
    ensures f.thrown.Some? <==> f.shown.None?
    ensures f.thrown.None? ==> !f.manager.readyForSwap
    ensures f.thrown.Some? ==> f.manager.readyForSwap && f.manager.buffers.value.front == m.buffers.value.front
    ensures m.readyForSwap && f.thrown.None? ==>
      var b := m.buffers.value;
      var n := f.manager.buffers.value;
      && Blank(n.back) && n.back.guardCount == -1
      && n.back.stack == b.front.stack && n.back.shapes == b.front.shapes
      && n.front.guardCount == |n.front.ops|
    ensures m.readyForSwap && late.None? ==>
      var b := m.buffers.value;
      var n := f.manager.buffers.value;
      && f.thrown.None?
      && n.front.ops == b.back.ops && n.front.matrices == b.back.matrices && n.front.colors == b.back.colors
      && n.front.lines == b.back.lines && n.front.meshes == b.back.meshes
  {
    var b := m.buffers.value;
    if !m.readyForSwap then
      var s := DrawAllGizmosToScreen(b.front);
      Frame(Manager(Some(b.(front := s.drawer)), false), Some(s), false, None)
    else
      var o := if late.Some? then Record(ResetMatrixAndColorState(b.back), late.value) else Done(b.back);
      if o.Threw? then
        Frame(Manager(Some(b.(back := o.drawer)), true), None, false, Some(o.error))
      else
        var front := BeginGuard(o.drawer);
        var g := EndGuard(b.front);
        var s := DrawAllGizmosToScreen(front);
        Frame(Manager(Some(Buffers(s.drawer, ClearAllGizmos(g.drawer))), false), Some(s), g.violated, None)
  }

  // ------------------------------------------------------------ invariant

  lemma EnableSound(m: Manager, shapes: Shapes)
    requires Generated(shapes)
    ensures Sound(OnEnable(m, shapes))
  {
    var b := OnEnable(m, shapes).buffers.value;
    BlankCoherent(b.front);
    BlankCoherent(b.back);
  }

  /**
   * After `OnEnable`, a producer's `DrawCube` and `DrawWireCube` on the back
   * drawer never throw; each records exactly one mesh, the generated one.
   */
  lemma EnabledCubesDraw(m: Manager, shapes: Shapes, t: Matrix)
    requires Generated(shapes)
    ensures var back := OnEnable(m, shapes).buffers.value.back;
      && DrawCube(back, t).Done? && DrawCube(back, t).drawer.meshes == [shapes.cube.value]
      && DrawWireCube(back, t).Done? && DrawWireCube(back, t).drawer.meshes == [shapes.wireCube.value]
  {
  }

  lemma DisableSound(m: Manager)
    ensures Sound(OnDisable(m))
  {
  }

  /** Handing out the back drawer keeps the invariant and changes nothing it shows. */
  lemma TryGetSound(m: Manager)
    requires Sound(m)
    ensures Sound(TryGetGizmoDrawer(m).manager)
    ensures m.buffers.Some? ==>
      Shows(TryGetGizmoDrawer(m).manager.buffers.value.back) == Shows(m.buffers.value.back)
  {
    if m.buffers.Some? {
      ResetCoherent(m.buffers.value.back);
      ResetMatches(m.buffers.value.back);
    }
  }

  /** Recording keeps a coherent drawer coherent and only appends, so its guard stays within its stream. */
  lemma RecordKeepsGuard(d: Drawer, calls: Producer)
    requires Coherent(d)
    ensures var e := Record(d, calls).drawer;
      Coherent(e) && e.guardCount == d.guardCount && |d.ops| <= |e.ops|
  {
    RecordMatchesReference(d, calls);
    RecordOnlyAppends(d, calls);
  }

  lemma DrawNowSound(m: Manager, calls: Producer)
    requires Sound(m)
    ensures Sound(DrawNow(m, calls))
  {
    TryGetSound(m);
    var g := TryGetGizmoDrawer(m);
    if g.ok {
      RecordKeepsGuard(g.manager.buffers.value.back, calls);
    }
  }

  lemma StaleWriteSound(m: Manager, calls: Producer)
    requires Sound(m) && m.buffers.Some?
    ensures Sound(StaleWrite(m, calls))
  {
    RecordKeepsGuard(m.buffers.value.front, calls);
  }

  lemma {:induction false} RunProducersKeepsGuard(d: Drawer, ps: seq<Producer>)
    requires Coherent(d)
    ensures var e := RunProducers(d, ps);
      Coherent(e) && e.guardCount == d.guardCount
    decreases |ps|
  {
    if |ps| > 0 {
      var e := RunProducers(d, ps[..|ps| - 1]);
      RunProducersKeepsGuard(d, ps[..|ps| - 1]);
      ResetCoherent(e);
      RecordKeepsGuard(ResetMatrixAndColorState(e), ps[|ps| - 1]);
    }
  }

  lemma UpdateSound(m: Manager, ps: seq<Producer>)
    requires Sound(m) && m.buffers.Some?
    ensures Sound(Update(m, ps))
  {
    RunProducersKeepsGuard(m.buffers.value.back, ps);
  }

  /** Guarding changes no list, so the guarded drawer replays and shows the same. */
  lemma GuardKeepsShows(d: Drawer)
    requires Coherent(d)
    ensures Coherent(BeginGuard(d)) && Shows(BeginGuard(d)) == Shows(d)
  {
    SameStreamCoherent(d, BeginGuard(d));
    ReplaySameLists(d, BeginGuard(d), |d.ops|);
  }

  lemma PostRenderSound(m: Manager, late: Option<Producer>)
    requires Sound(m) && m.buffers.Some?
    ensures Sound(OnPostRender(m, late).manager)
  {
    var b := m.buffers.value;
    if !m.readyForSwap {
      ReplayLeavesDrawer(b.front);
    } else {
      var o := if late.Some? then Record(ResetMatrixAndColorState(b.back), late.value) else Done(b.back);
      if late.Some? {
        ResetCoherent(b.back);
        RecordKeepsGuard(ResetMatrixAndColorState(b.back), late.value);
      }
      if o.Done? {
        GuardKeepsShows(o.drawer);
        ReplayLeavesDrawer(BeginGuard(o.drawer));
        BlankCoherent(ClearAllGizmos(EndGuard(b.front).drawer));
      }
    }
  }

  // ---------------------------------------------------------- what is shown

  /**
   * Without a pending swap, a frame redraws the front drawer and leaves the
   * manager exactly as it was: every camera sees the same gizmos.
   */
  lemma NotReadyRedraws(m: Manager, late: Option<Producer>)
    requires Sound(m) && m.buffers.Some? && !m.readyForSwap
    ensures var f := OnPostRender(m, late);
      && f.manager == m
      && Draws(f.shown.value.trace) == Shows(m.buffers.value.front)
      && f.shown.value.error.None?
  {
    ReplayLeavesDrawer(m.buffers.value.front);
    ScreenShows(m.buffers.value.front);
  }

  /**
   * The swap shows what was recorded: after a swap, the screen gets exactly
   * what the back drawer held, followed by the late subscribers' draws in
   * immediate mode from white and identity; the swap throws exactly when the
   * late calls do. The new back drawer is empty and unguarded, and the new
   * front drawer is guarded at its end.
   */
  lemma SwapShowsBack(m: Manager, late: Option<Producer>)
    requires Sound(m) && m.buffers.Some? && m.readyForSwap
    ensures var b := m.buffers.value;
      var p := PenOf(b.back).(color := White, matrix := Identity);
      var s := if late.Some? then Reference(p, late.value) else Sketch(PenOf(b.back), [], false);
      var f := OnPostRender(m, late);
      && (f.thrown.Some? <==> s.stopped)
      && (f.thrown.None? ==>
            && Draws(f.shown.value.trace) == Shows(b.back) + s.draws
            && f.shown.value.error.None?
            && Blank(f.manager.buffers.value.back)
            && f.manager.buffers.value.back.guardCount == -1
            && f.manager.buffers.value.front.guardCount == |f.manager.buffers.value.front.ops|
            && Shows(f.manager.buffers.value.front) == Shows(b.back) + s.draws
            && b.back.ops <= f.manager.buffers.value.front.ops
            && b.back.lines <= f.manager.buffers.value.front.lines
            && b.back.meshes <= f.manager.buffers.value.front.meshes)
  {
    var b := m.buffers.value;
    var o := if late.Some? then Record(ResetMatrixAndColorState(b.back), late.value) else Done(b.back);
    if late.Some? {
      LateCallsMatch(b.back, late.value);
    } else {
      assert Shows(b.back) + [] == Shows(b.back);
    }
    if o.Done? {
      GuardKeepsShows(o.drawer);
      ReplayLeavesDrawer(BeginGuard(o.drawer));
      ScreenShows(BeginGuard(o.drawer));
    }
  }

  /**
   * The late subscribers' calls, recorded into the reset back drawer, throw
   * exactly when they do in immediate mode, and otherwise append their
   * immediate-mode draws to what the back drawer shows.
   */
  lemma LateCallsMatch(d: Drawer, q: Producer)
    requires Coherent(d)
    ensures var o := Record(ResetMatrixAndColorState(d), q);
      var s := Reference(PenOf(d).(color := White, matrix := Identity), q);
      && (o.Threw? <==> s.stopped)
      && (o.Done? ==>
            && Coherent(o.drawer) && Shows(o.drawer) == Shows(d) + s.draws
            && d.ops <= o.drawer.ops && d.lines <= o.drawer.lines && d.meshes <= o.drawer.meshes
            && o.drawer.guardCount == d.guardCount)
  {
    ResetMatches(d);
    RecordMatchesReference(ResetMatrixAndColorState(d), q);
    RecordOnlyAppends(ResetMatrixAndColorState(d), q);
  }

  /** Resetting matrix and colour keeps coherence and what the drawer shows, and sets the pen to white and identity. */
  lemma ResetMatches(d: Drawer)
    requires Coherent(d)
    ensures var r := ResetMatrixAndColorState(d);
      && Coherent(r) && Shows(r) == Shows(d)
      && PenOf(r) == PenOf(d).(color := White, matrix := Identity)
  {
    SetMatrixMatches(d, Identity);
    var e := SetMatrix(d, Identity);
    SetColorMatches(e, White);
  }

  /**
   * A guarded front drawer reports, at the next swap, exactly the writes made
   * to it after it was guarded: for a front drawer guarded at its end, the
   * swap after a stale write reports it exactly when the write recorded
   * something.
   */
  lemma GuardReportsStaleWrites(m: Manager, calls: Producer, late: Option<Producer>)
    requires Sound(m) && m.buffers.Some? && m.readyForSwap
    requires m.buffers.value.front.guardCount == |m.buffers.value.front.ops|
    ensures var n := StaleWrite(m, calls);
      var f := OnPostRender(n, late);
      f.thrown.None? ==> (f.staleWrites <==> n.buffers.value.front.ops != m.buffers.value.front.ops)
  {
    RecordOnlyAppends(m.buffers.value.front, calls);
  }

  // ------------------------------------------------------------ producers

  /**
   * The producers' turns in immediate mode: each starts from white and
   * identity, keeps the wire mode and matrix stack the previous one left,
   * and a turn that throws ends only that turn.
   */
  function Turns(p: Pen, ps: seq<Producer>): (s: Sketch)
    ensures !s.stopped
    decreases |ps|
  {
    if |ps| == 0 then Sketch(p, [], false)
    else
      var s := Turns(p, ps[..|ps| - 1]);
      var t := Reference(s.pen.(color := White, matrix := Identity), ps[|ps| - 1]);
      Sketch(t.pen, s.draws + t.draws, false)
  }

  /**
   * `Update`'s producers, recorded into a coherent back drawer, extend what
   * it shows by exactly their immediate-mode draws and leave it in the
   * immediate-mode state.
   */
  lemma {:induction false} ProducersMatch(d: Drawer, ps: seq<Producer>)
    requires Coherent(d)
    ensures var e := RunProducers(d, ps);
      && Coherent(e)
      && PenOf(e) == Turns(PenOf(d), ps).pen
      && Shows(e) == Shows(d) + Turns(PenOf(d), ps).draws
    decreases |ps|
  {
    if |ps| > 0 {
      var pre := ps[..|ps| - 1];
      ProducersMatch(d, pre);
      TurnMatches(d, RunProducers(d, pre), Turns(PenOf(d), pre), ps[|ps| - 1]);
    }
  }

  /** One producer's turn keeps the recorded drawer and the immediate-mode reference in step. */
  lemma TurnMatches(d: Drawer, e: Drawer, s: Sketch, q: Producer)
    requires Coherent(e) && PenOf(e) == s.pen && Shows(e) == Shows(d) + s.draws
    ensures var e' := Record(ResetMatrixAndColorState(e), q).drawer;
      var t := Reference(s.pen.(color := White, matrix := Identity), q);
      && Coherent(e') && PenOf(e') == t.pen && Shows(e') == Shows(d) + (s.draws + t.draws)
  {
    var r := ResetMatrixAndColorState(e);
    ResetMatches(e);
    RecordMatchesReference(r, q);
    ShowsAfter(d, r, Record(r, q), s.draws, Reference(PenOf(r), q));
  }

  /** Matching after a prefix: the draws add up. */
  lemma ShowsAfter(d: Drawer, r: Drawer, o: Outcome, before: seq<Event>, t: Sketch)
    requires Matches(r, o, t) && Shows(r) == Shows(d) + before
    ensures Shows(o.drawer) == Shows(d) + (before + t.draws)
  {
    assert Shows(d) + before + t.draws == Shows(d) + (before + t.draws);
  }

  /** An empty drawer shows nothing and holds the pen white, at identity, in solid mode. */
  lemma BlankShowsNothing(d: Drawer)
    requires Blank(d)
    ensures Shows(d) == [] && PenOf(d) == Pen(White, Identity, false, d.stack, d.shapes.sphere)
  {
  }

  /**
   * One whole frame: starting from an empty back drawer, `Update` followed by
   * `onPostRender` with no late subscribers shows exactly the producers'
   * draws in immediate mode, in order, starting from white, identity and
   * solid mode.
   */
  lemma FrameShowsProducers(m: Manager, ps: seq<Producer>)
    requires Sound(m) && m.buffers.Some? && Blank(m.buffers.value.back)
    ensures var f := OnPostRender(Update(m, ps), None);
      && f.thrown.None?
      && Draws(f.shown.value.trace) == Turns(Pen(White, Identity, false, m.buffers.value.back.stack, m.buffers.value.back.shapes.sphere), ps).draws
      && f.shown.value.error.None?
  {
    var d := m.buffers.value.back;
    var n := Update(m, ps);
    ProducersMatch(d, ps);
    BlankShowsNothing(d);
    assert Shows(n.buffers.value.back) == Turns(PenOf(d), ps).draws;
    UpdateSound(m, ps);
    SwapShowsBack(n, None);
  }
}
