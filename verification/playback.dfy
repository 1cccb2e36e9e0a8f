/**
 * The replay side of `RuntimeGizmoDrawer` (`DrawAllGizmosToScreen` and
 * `setPass`). Instead of GL calls, replay produces a trace of events; each
 * draw event carries the GPU state it is drawn under (pass, material colour,
 * matrix, wireframe flag).
 */
module Playback {
  import opened Wrappers
  import opened Geometry
  import opened Stream

  const NoPass := -1
  const UnlitSolidPass := 0
  const UnlitTransparentPass := 1
  const ShadedSolidPass := 2
  const ShadedTransparentPass := 3

  /** What the replay does to the display device. */
  datatype Event =
    | WireframeSet(on: bool)
      /** `_gizmoMaterial.color = c; _gizmoMaterial.SetPass(pass)` */
    | PassSet(pass: int, color: Color)
      /** A line under `matrix`, drawn with the material's current pass and colour. */
    | LineDrawn(pass: int, tint: Option<Color>, matrix: Matrix, line: Line)
      /** `Graphics.DrawMeshNow(mesh, matrix)` with the current pass, colour and wireframe flag. */
    | MeshDrawn(pass: int, tint: Option<Color>, mesh: MeshId, matrix: Matrix, wire: bool)

  /** The side list whose read ran past its end (an `ArgumentOutOfRangeException`). */
  datatype ReplayError = MissingMatrix | MissingColor | MissingLine | MissingMesh

  /** The four read cursors, one per side list. */
  datatype Cursor = Cursor(matrix: nat, color: nat, line: nat, mesh: nat)

  /**
   * The replay loop's state. `material` is the colour last given to the
   * material during this replay (None before the first pass is set).
   */
  datatype Replayer = Replayer(
    next: Cursor,
    pass: int,
    material: Option<Color>,
    matrix: Matrix,
    color: Color,
    wire: bool,
    trace: seq<Event>,
    error: Option<ReplayError>)

  const Start := Replayer(Cursor(0, 0, 0, 0), NoPass, None, Identity, White, false, [], None)

  /** The pass for a draw: unlit or shaded, transparent exactly when alpha < 1. */
  function PassFor(unlit: bool, c: Color): (p: int)
    ensures UnlitSolidPass <= p <= ShadedTransparentPass
    ensures p <= UnlitTransparentPass <==> unlit
    ensures (p == UnlitTransparentPass || p == ShadedTransparentPass) <==> c.a < 1.0
  {
    if unlit then (if c.a < 1.0 then UnlitTransparentPass else UnlitSolidPass)
    else (if c.a < 1.0 then ShadedTransparentPass else ShadedSolidPass)
  }

  /** `setPass`: the material is re-set only when the pass changes. */
  function SetPass(r: Replayer, unlit: bool): (s: Replayer)
    ensures s.pass == PassFor(unlit, r.color)
    ensures r.pass == s.pass ==> s == r
    ensures r.pass != s.pass ==>
      s == r.(pass := s.pass, material := Some(r.color), trace := r.trace + [PassSet(s.pass, r.color)])
  {
    var p := PassFor(unlit, r.color);
    if r.pass != p then r.(pass := p, material := Some(r.color), trace := r.trace + [PassSet(p, r.color)])
    else r
  }

  /** One iteration of the replay loop. */
  function Step(d: Drawer, r: Replayer, op: Op): Replayer
  {
    match op
    case SetMatrixOp =>
      if r.next.matrix < |d.matrices| then
        r.(matrix := d.matrices[r.next.matrix], next := r.next.(matrix := r.next.matrix + 1))
      else r.(error := Some(MissingMatrix))
    case SetColorOp =>
      if r.next.color < |d.colors| then
        r.(color := d.colors[r.next.color], next := r.next.(color := r.next.color + 1), pass := NoPass)
      else r.(error := Some(MissingColor))
    case ToggleWireframeOp =>
      r.(wire := !r.wire, trace := r.trace + [WireframeSet(!r.wire)])
    case DrawLineOp =>
      var s := SetPass(r, true);
      if s.next.line < |d.lines| then
        s.(next := s.next.(line := s.next.line + 1),
           trace := s.trace + [LineDrawn(s.pass, s.material, s.matrix, d.lines[s.next.line])])
      else s.(error := Some(MissingLine))
    case DrawMeshOp =>
      var s := SetPass(r, r.wire);
      if s.next.mesh >= |d.meshes| then s.(error := Some(MissingMesh))
      else if s.next.matrix >= |d.matrices| then s.(error := Some(MissingMatrix))
      else
        s.(next := s.next.(mesh := s.next.mesh + 1, matrix := s.next.matrix + 1),
           trace := s.trace + [MeshDrawn(s.pass, s.material, d.meshes[s.next.mesh],
                                         Product(s.matrix, d.matrices[s.next.matrix]), s.wire)])
  }

  /** The replay loop run over the first `n` tags; a failed read stops the loop. */
  function ReplayPrefix(d: Drawer, n: nat): Replayer
    requires n <= |d.ops|
  {
    if n == 0 then Start
    else
      var r := ReplayPrefix(d, n - 1);
      if r.error.Some? then r else Step(d, r, d.ops[n - 1])
  }

  /** The replay loop run over the whole stream. */
  function Replay(d: Drawer): Replayer
  {
    ReplayPrefix(d, |d.ops|)
  }

  /** What one `DrawAllGizmosToScreen` call leaves behind. */
  datatype Shown = Shown(drawer: Drawer, trace: seq<Event>, error: Option<ReplayError>)

  /**
   * `DrawAllGizmosToScreen`: GL wireframe is switched off before the loop and,
   * by the `finally` block, after it even when a read fails. The loop writes
   * the drawer's current matrix and colour as it goes.
   */
  function DrawAllGizmosToScreen(d: Drawer): (s: Shown)
    ensures |s.trace| >= 2
    ensures s.trace[0] == WireframeSet(false) && s.trace[|s.trace| - 1] == WireframeSet(false)
    ensures s.drawer == d.(matrix := s.drawer.matrix, color := s.drawer.color)
  {
    var r := Replay(d);
    Shown(d.(matrix := r.matrix, color := r.color), [WireframeSet(false)] + r.trace + [WireframeSet(false)], r.error)
  }

  /** The cursor position after replaying `ops` from a well-formed stream. */
  function CursorAfter(ops: seq<Op>): Cursor
  {
    Cursor(Count(ops, SetMatrixOp) + Count(ops, DrawMeshOp), Count(ops, SetColorOp),
           Count(ops, DrawLineOp), Count(ops, DrawMeshOp))
  }

  lemma {:induction false} CountAppend(a: seq<Op>, b: seq<Op>, k: Op)
    ensures Count(a + b, k) == Count(a, k) + Count(b, k)
    decreases |b|
  {
    if |b| == 0 {
      assert a + b == a;
    } else {
      var b' := b[..|b| - 1];
      assert (a + b)[..|a + b| - 1] == a + b';
      CountAppend(a, b', k);
    }
  }

  lemma CountPrefixBound(ops: seq<Op>, n: nat, k: Op)
    requires n <= |ops|
    ensures Count(ops[..n], k) <= Count(ops, k)
  {
    assert ops == ops[..n] + ops[n..];
    CountAppend(ops[..n], ops[n..], k);
  }

  /**
   * On a well-formed stream no read runs past its list, and after `n` tags
   * each cursor has advanced once per tag that consumes from its list.
   */
  lemma {:induction false} ReplayCursors(d: Drawer, n: nat)
    requires WellFormed(d) && n <= |d.ops|
    ensures ReplayPrefix(d, n).error.None?
    ensures ReplayPrefix(d, n).next == CursorAfter(d.ops[..n])
  {
    if n > 0 {
      ReplayCursors(d, n - 1);
      var pre := d.ops[..n - 1];
      assert d.ops[..n][..n - 1] == pre;
      forall k: Op ensures Count(d.ops[..n], k) == Count(pre, k) + (if d.ops[n - 1] == k then 1 else 0)
                    && Count(d.ops[..n], k) <= Count(d.ops, k) {
        CountPrefixBound(d.ops, n, k);
      }
    }
  }

  /** Replay consumes every payload exactly once: the final cursors sit at the ends of the lists. */
  lemma ReplayConsumesAll(d: Drawer)
    requires WellFormed(d)
    ensures Replay(d).error.None?
    ensures Replay(d).next == Cursor(|d.matrices|, |d.colors|, |d.lines|, |d.meshes|)
  {
    ReplayCursors(d, |d.ops|);
    assert d.ops[..|d.ops|] == d.ops;
  }

  /**
   * Whenever a pass is set, the material holds the current colour: a SetColor
   * forces the pass to be set again before the next draw.
   */
  lemma {:induction false} MaterialFollowsColor(d: Drawer, n: nat)
    requires n <= |d.ops|
    ensures MaterialCurrent(ReplayPrefix(d, n))
  {
    if n > 0 {
      MaterialFollowsColor(d, n - 1);
      var r := ReplayPrefix(d, n - 1);
      if r.error.None? {
        StepKeepsMaterial(d, r, d.ops[n - 1]);
      }
    }
  }

  /**
   * A SetColor clears the pass, so the next draw, line or mesh, sets the pass
   * again and gives the material the new colour before it draws.
   */
  lemma SetColorForcesPass(d: Drawer, r: Replayer, draw: Op)
    requires r.next.color < |d.colors|
    requires draw == DrawLineOp || draw == DrawMeshOp
    ensures var s := Step(d, r, SetColorOp);
      var t := Step(d, s, draw).trace;
      && s.pass == NoPass && s.color == d.colors[r.next.color] && s.trace == r.trace
      && |t| > |r.trace|
      && t[..|r.trace| + 1] == r.trace + [PassSet(PassFor(draw == DrawLineOp || r.wire, s.color), s.color)]
  {
    var s := Step(d, r, SetColorOp);
    var u := SetPass(s, draw == DrawLineOp || s.wire);
    assert u.trace == r.trace + [PassSet(PassFor(draw == DrawLineOp || r.wire, s.color), s.color)];
    var t := Step(d, s, draw).trace;
    assert u.trace <= t;
  }

  /** Once a pass is set, the material colour is the current colour and the pass is one of the four. */
  predicate MaterialCurrent(r: Replayer)
  {
    r.pass != NoPass ==> r.material == Some(r.color) && UnlitSolidPass <= r.pass <= ShadedTransparentPass
  }

  lemma StepKeepsMaterial(d: Drawer, r: Replayer, op: Op)
    requires MaterialCurrent(r)
    ensures MaterialCurrent(Step(d, r, op))
  {
    if op == DrawLineOp || op == DrawMeshOp {
      var s := SetPass(r, if op == DrawLineOp then true else r.wire);
      assert MaterialCurrent(s);
    }
  }

  /** Replay reads only the lists, so a drawer with the same lists replays the same. */
  lemma {:induction false} ReplaySameLists(d: Drawer, e: Drawer, n: nat)
    requires d.ops == e.ops && d.matrices == e.matrices && d.colors == e.colors
    requires d.lines == e.lines && d.meshes == e.meshes
    requires n <= |d.ops|
    ensures ReplayPrefix(d, n) == ReplayPrefix(e, n)
  {
    if n > 0 {
      ReplaySameLists(d, e, n - 1);
    }
  }

  /**
   * Appending to a stream does not change how its old part replays, as long
   * as that part replayed without a failed read.
   */
  lemma {:induction false} ReplayExtends(d: Drawer, e: Drawer, n: nat)
    requires d.ops <= e.ops && d.matrices <= e.matrices && d.colors <= e.colors
    requires d.lines <= e.lines && d.meshes <= e.meshes
    requires n <= |d.ops|
    requires ReplayPrefix(d, n).error.None?
    ensures ReplayPrefix(e, n) == ReplayPrefix(d, n)
  {
    if n > 0 {
      assert ReplayPrefix(d, n - 1).error.None?;
      ReplayExtends(d, e, n - 1);
      assert e.ops[n - 1] == d.ops[n - 1];
    }
  }
}
