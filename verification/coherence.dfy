/**
 * The invariant that ties recording to replay: every tag has its payload,
 * and replaying the stream ends in exactly the matrix, colour and wire mode
 * the recorder believes are current. Every recording operation keeps it.
 */
module Coherence {
  import opened Wrappers
  import opened Geometry
  import opened Stream
  import opened Playback

  predicate Coherent(d: Drawer)
  {
    && WellFormed(d)
    && Replay(d).matrix == d.matrix
    && Replay(d).color == d.color
    && Replay(d).wire == d.wireMode
  }

  /** A coherent stream replays without a failed read, to the end of every list. */
  lemma CoherentReplay(d: Drawer)
    requires Coherent(d)
    ensures Replay(d).error.None?
    ensures Replay(d).next == Cursor(|d.matrices|, |d.colors|, |d.lines|, |d.meshes|)
  {
    ReplayConsumesAll(d);
  }

  /** Appending one tag (and the payloads it needs) adds exactly one replay step. */
  lemma AppendOneStep(d: Drawer, e: Drawer, op: Op)
    requires WellFormed(d)
    requires e.ops == d.ops + [op]
    requires d.matrices <= e.matrices && d.colors <= e.colors
    requires d.lines <= e.lines && d.meshes <= e.meshes
    ensures Replay(e) == Step(e, Replay(d), op)
    ensures forall k: Op :: Count(e.ops, k) == Count(d.ops, k) + (if op == k then 1 else 0)
  {
    ReplayConsumesAll(d);
    assert d.ops <= e.ops;
    ReplayExtends(d, e, |d.ops|);
    assert e.ops[..|e.ops| - 1] == d.ops;
  }

  /** Fields replay never reads (stack, guard, shapes) do not affect coherence. */
  lemma SameStreamCoherent(d: Drawer, e: Drawer)
    requires Coherent(d)
    requires e.ops == d.ops && e.matrices == d.matrices && e.colors == d.colors
    requires e.lines == d.lines && e.meshes == d.meshes
    requires e.matrix == d.matrix && e.color == d.color && e.wireMode == d.wireMode
    ensures Coherent(e)
  {
    ReplaySameLists(d, e, |d.ops|);
  }

  /** A freshly created or cleared drawer is coherent. */
  lemma BlankCoherent(d: Drawer)
    requires Blank(d)
    ensures Coherent(d)
  {
  }

  lemma SetColorCoherent(d: Drawer, c: Color)
    requires Coherent(d)
    ensures Coherent(SetColor(d, c))
  {
    var e := SetColor(d, c);
    if e != d {
      AppendOneStep(d, e, SetColorOp);
      CoherentReplay(d);
    }
  }

  lemma SetMatrixCoherent(d: Drawer, m: Matrix)
    requires Coherent(d)
    ensures Coherent(SetMatrix(d, m))
  {
    var e := SetMatrix(d, m);
    if e != d {
      AppendOneStep(d, e, SetMatrixOp);
      CoherentReplay(d);
    }
  }

  lemma DrawLineCoherent(d: Drawer, a: Vec, b: Vec)
    requires Coherent(d)
    ensures Coherent(DrawLine(d, a, b))
  {
    var e := DrawLine(d, a, b);
    AppendOneStep(d, e, DrawLineOp);
    CoherentReplay(d);
    MaterialFollowsColor(d, |d.ops|);
  }

  lemma SetWireModeCoherent(d: Drawer, wire: bool)
    requires Coherent(d)
    ensures Coherent(SetWireMode(d, wire))
  {
    var e := SetWireMode(d, wire);
    if e != d {
      AppendOneStep(d, e, ToggleWireframeOp);
    }
  }

  lemma RecordMeshCoherent(d: Drawer, wire: bool, mesh: Option<MeshId>, m: Matrix)
    requires Coherent(d)
    ensures Coherent(RecordMesh(d, wire, mesh, m).drawer)
  {
    var w := SetWireMode(d, wire);
    SetWireModeCoherent(d, wire);
    var o := DrawMeshInternal(w, mesh, m);
    if o.Done? {
      AppendOneStep(w, o.drawer, DrawMeshOp);
      CoherentReplay(w);
      MaterialFollowsColor(w, |w.ops|);
    }
  }

  lemma PushMatrixCoherent(d: Drawer)
    requires Coherent(d)
    ensures Coherent(PushMatrix(d))
  {
    SameStreamCoherent(d, PushMatrix(d));
  }

  lemma PopMatrixCoherent(d: Drawer)
    requires Coherent(d)
    ensures Coherent(PopMatrix(d).drawer)
  {
    if d.stack != [] {
      var p := d.(stack := d.stack[..|d.stack| - 1]);
      SameStreamCoherent(d, p);
      SetMatrixCoherent(p, d.stack[|d.stack| - 1]);
    }
  }

  lemma ResetCoherent(d: Drawer)
    requires Coherent(d)
    ensures Coherent(ResetMatrixAndColorState(d))
  {
    SetMatrixCoherent(d, Identity);
    SetColorCoherent(SetMatrix(d, Identity), White);
  }

  /**
   * Replaying a coherent stream leaves the drawer exactly as it was, so the
   * front buffer can be replayed once per camera with the same result.
   */
  lemma ReplayLeavesDrawer(d: Drawer)
    requires Coherent(d)
    ensures DrawAllGizmosToScreen(d).drawer == d
    ensures DrawAllGizmosToScreen(d).error.None?
  {
    CoherentReplay(d);
  }
}
