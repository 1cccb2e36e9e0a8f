/**
 * The loop structure of `DrawWireArc` and `DrawCameraAwareWireCircle`: how
 * many segments they draw, which lines they record, and which colour each
 * line is drawn with. The rotation by one segment's angle and the
 * front/back classification of a radius vector are float geometry and are
 * supplied by the caller as `rotate` and `isFront`.
 */
module Arcs {
  import opened Geometry
  import opened Stream
  import opened Playback
  import opened Coherence
  import opened Commands

  /** C#'s `(int)` cast of a float: truncation toward zero. */
  function Truncate(x: real): (n: int)
    ensures x >= 0.0 ==> 0 <= n && n as real <= x < n as real + 1.0
    ensures x < 0.0 ==> n <= 0 && n as real - 1.0 < x <= n as real
  {
    if x >= 0.0 then x.Floor else -((-x).Floor)
  }

  /** `v` rotated `i` times. */
  function Turn(rotate: Vec -> Vec, v: Vec, i: nat): Vec
  {
    if i == 0 then v else rotate(Turn(rotate, v, i - 1))
  }

  /** The first `k` chords between consecutive rotations of `r0`, offset by `center`. */
  function ArcLines(center: Vec, r0: Vec, rotate: Vec -> Vec, k: nat): (ls: seq<Line>)
    ensures |ls| == k
  {
    if k == 0 then []
    else ArcLines(center, r0, rotate, k - 1) + [Line(Add(center, Turn(rotate, r0, k - 1)), Add(center, Turn(rotate, r0, k)))]
  }

  /** Chord `i` of an arc joins the `i`-th and the next rotation of the start radius. */
  lemma {:induction false} ArcLinesAt(center: Vec, r0: Vec, rotate: Vec -> Vec, k: nat, i: nat)
    requires i < k
    ensures ArcLines(center, r0, rotate, k)[i] == Line(Add(center, Turn(rotate, r0, i)), Add(center, Turn(rotate, r0, i + 1)))
  {
    if i < k - 1 {
      ArcLinesAt(center, r0, rotate, k - 1, i);
    }
  }

  /** `(int)(numCircleSegments * fractionOfCircleToDraw)`, and no segments when that is negative. */
  function ArcSegments(numCircleSegments: int, fraction: real): nat
  {
    var n := Truncate(numCircleSegments as real * fraction);
    if n < 0 then 0 else n
  }

  /**
   * `DrawWireArc`: `r0` is the normalised start direction times the radius
   * and `rotate` the rotation by 360/numCircleSegments degrees about the
   * normal. Draws ⌊numCircleSegments × fraction⌋ consecutive chords and
   * changes nothing else.
   */
  method DrawWireArc(d: Drawer, center: Vec, r0: Vec, rotate: Vec -> Vec,
                     fraction: real, numCircleSegments: int) returns (e: Drawer)
    ensures var k := ArcSegments(numCircleSegments, fraction);
      && e.ops == d.ops + seq(k, _ => DrawLineOp)
      && e.lines == d.lines + ArcLines(center, r0, rotate, k)
      && e == d.(ops := e.ops, lines := e.lines)
  {
    var n := Truncate(numCircleSegments as real * fraction);
    ghost var k := ArcSegments(numCircleSegments, fraction);
    var radius := r0;
    e := d;
    var i := 0;
    while i < n
      invariant 0 <= i <= k
      invariant radius == Turn(rotate, r0, i)
      invariant e == d.(ops := d.ops + seq(i, _ => DrawLineOp), lines := d.lines + ArcLines(center, r0, rotate, i))
    {
      var next := rotate(radius);
      e := DrawLine(e, Add(center, radius), Add(center, next));
      assert seq(i + 1, _ => DrawLineOp) == seq(i, _ => DrawLineOp) + [DrawLineOp];
      radius := next;
      i := i + 1;
    }
  }

  /** The alpha of one camera-aware segment: full in front, a tenth behind, the average where it crosses. */
  function SegmentAlpha(orig: Color, front: bool, nextFront: bool): real
  {
    var frontAlpha := 1.0 * orig.a;
    var backAlpha := 0.1 * orig.a;
    if front != nextFront then (frontAlpha + backAlpha) / 2.0
    else if front then frontAlpha
    else backAlpha
  }

  /** C#'s unchecked 32-bit `int` arithmetic: `x` wrapped into [-2^31, 2^31). */
  function WrapInt32(x: int): (w: int)
    ensures -0x8000_0000 <= w < 0x8000_0000
    ensures (x - w) % 0x1_0000_0000 == 0
    ensures -0x8000_0000 <= x < 0x8000_0000 ==> w == x
  {
    (x + 0x8000_0000) % 0x1_0000_0000 - 0x8000_0000
  }

  /**
   * Number of segments `DrawCameraAwareWireCircle` draws: the loop bound
   * `numSegments + 1` in 32-bit arithmetic, none when that is not positive.
   * At `int.MaxValue` the bound wraps to `int.MinValue` and nothing is drawn.
   */
  function CircleSegments(numSegments: int): (k: nat)
    ensures -0x8000_0000 <= numSegments < 0x7fff_ffff ==> k == if numSegments + 1 > 0 then numSegments + 1 else 0
    ensures numSegments == 0x7fff_ffff ==> k == 0
  {
    var bound := WrapInt32(numSegments + 1);
    if bound > 0 then bound else 0
  }

  /** The colour of segment `i`, from the facing of its two end radii. */
  function SegmentColor(orig: Color, r0: Vec, rotate: Vec -> Vec, isFront: Vec -> bool, i: nat): Color
  {
    WithAlpha(orig, SegmentAlpha(orig, isFront(Turn(rotate, r0, i)), isFront(Turn(rotate, r0, i + 1))))
  }

  /** The line of segment `i`: from one radius vector to the next, not offset by any centre. */
  function SegmentLine(r0: Vec, rotate: Vec -> Vec, i: nat): Line
  {
    Line(Turn(rotate, r0, i), Turn(rotate, r0, i + 1))
  }

  /** The lines of the first `k` segments, in order. */
  function SegmentLines(r0: Vec, rotate: Vec -> Vec, k: nat): (ls: seq<Line>)
    ensures |ls| == k
  {
    if k == 0 then [] else SegmentLines(r0, rotate, k - 1) + [SegmentLine(r0, rotate, k - 1)]
  }

  lemma {:induction false} SegmentLinesAt(r0: Vec, rotate: Vec -> Vec, k: nat, i: nat)
    requires i < k
    ensures SegmentLines(r0, rotate, k)[i] == SegmentLine(r0, rotate, i)
  {
    if i < k - 1 {
      SegmentLinesAt(r0, rotate, k - 1, i);
    }
  }

  /** The colours of the first `k` segments. */
  function SegmentColors(orig: Color, r0: Vec, rotate: Vec -> Vec, isFront: Vec -> bool, k: nat): (cs: seq<Color>)
    ensures |cs| == k
  {
    seq(k, i requires 0 <= i < k => SegmentColor(orig, r0, rotate, isFront, i))
  }

  /** For each of the first `i` segments: set the colour `cs[j]`, then draw segment `j`'s line. */
  function Strokes(cs: seq<Color>, r0: Vec, rotate: Vec -> Vec, i: nat): (calls: seq<Command>)
    requires i <= |cs|
    ensures |calls| == 2 * i
  {
    if i == 0 then []
    else Strokes(cs, r0, rotate, i - 1) + [SetColorCmd(cs[i - 1]), LineCmd(Turn(rotate, r0, i - 1), Turn(rotate, r0, i))]
  }

  /**
   * The calls `DrawCameraAwareWireCircle` makes: per segment a colour and a
   * line, then the original colour back.
   */
  function CircleCalls(orig: Color, r0: Vec, rotate: Vec -> Vec, isFront: Vec -> bool, k: nat): seq<Command>
  {
    Strokes(SegmentColors(orig, r0, rotate, isFront, k), r0, rotate, k) + [SetColorCmd(orig)]
  }

  /** The drawer after the first `i` strokes. */
  function Stroked(d: Drawer, cs: seq<Color>, r0: Vec, rotate: Vec -> Vec, i: nat): Drawer
    requires i <= |cs|
  {
    if i == 0 then d
    else DrawLine(SetColor(Stroked(d, cs, r0, rotate, i - 1), cs[i - 1]), Turn(rotate, r0, i - 1), Turn(rotate, r0, i))
  }

  /** One more stroke: segment `i` in colour `cs[i]`, which is the colour its facing gives it. */
  lemma StrokedNext(d: Drawer, cs: seq<Color>, r0: Vec, rotate: Vec -> Vec, i: nat)
    requires i < |cs|
    ensures Stroked(d, cs, r0, rotate, i + 1)
         == DrawLine(SetColor(Stroked(d, cs, r0, rotate, i), cs[i]), Turn(rotate, r0, i), Turn(rotate, r0, i + 1))
  {
  }

  /** Recording a colour call and then a line call. */
  lemma RecordColorThenLine(d: Drawer, c: Color, a: Vec, b: Vec)
    ensures Record(d, [SetColorCmd(c), LineCmd(a, b)]) == Done(DrawLine(SetColor(d, c), a, b))
  {
    var calls := [SetColorCmd(c), LineCmd(a, b)];
    assert calls[..1] == [SetColorCmd(c)];
    assert [SetColorCmd(c)][..0] == [];
    assert Record(d, [SetColorCmd(c)]) == Done(SetColor(d, c));
  }

  /** Recording the first `i` strokes' calls never throws and ends in `Stroked`. */
  lemma {:induction false} StrokedRecords(d: Drawer, cs: seq<Color>, r0: Vec, rotate: Vec -> Vec, i: nat)
    requires i <= |cs|
    ensures Record(d, Strokes(cs, r0, rotate, i)) == Done(Stroked(d, cs, r0, rotate, i))
  {
    if i > 0 {
      var c := cs[i - 1];
      var a := Turn(rotate, r0, i - 1);
      var b := Turn(rotate, r0, i);
      StrokedRecords(d, cs, r0, rotate, i - 1);
      RecordColorThenLineAfter(d, Strokes(cs, r0, rotate, i - 1), Stroked(d, cs, r0, rotate, i - 1), c, a, b);
    }
  }

  /** After calls that recorded `x`, a colour call and a line call record as on `x`. */
  lemma RecordColorThenLineAfter(d: Drawer, xs: seq<Command>, x: Drawer, c: Color, a: Vec, b: Vec)
    requires Record(d, xs) == Done(x)
    ensures Record(d, xs + [SetColorCmd(c), LineCmd(a, b)]) == Done(DrawLine(SetColor(x, c), a, b))
  {
    RecordAppend(d, xs, [SetColorCmd(c), LineCmd(a, b)]);
    RecordColorThenLine(x, c, a, b);
  }

  /** One stroke: a colour change (when the colour differs) and one line. */
  lemma StrokeStep(p: Drawer, c: Color, a: Vec, b: Vec)
    ensures var q := DrawLine(SetColor(p, c), a, b);
      && q.lines == p.lines + [Line(a, b)]
      && p.ops <= q.ops
      && (forall j :: |p.ops| <= j < |q.ops| ==> q.ops[j] == SetColorOp || q.ops[j] == DrawLineOp)
      && q == p.(ops := q.ops, colors := q.colors, lines := q.lines, color := q.color)
  {
  }

  /** The first `i` strokes add their lines, in order. */
  lemma {:induction false} StrokedLines(d: Drawer, cs: seq<Color>, r0: Vec, rotate: Vec -> Vec, i: nat)
    requires i <= |cs|
    ensures Stroked(d, cs, r0, rotate, i).lines == d.lines + SegmentLines(r0, rotate, i)
  {
    if i > 0 {
      StrokedLines(d, cs, r0, rotate, i - 1);
      StrokeStep(Stroked(d, cs, r0, rotate, i - 1), cs[i - 1], Turn(rotate, r0, i - 1), Turn(rotate, r0, i));
    }
  }

  /** The first `i` strokes only append colour and line tags, and touch nothing but the stream and the colour. */
  lemma {:induction false} StrokedOps(d: Drawer, cs: seq<Color>, r0: Vec, rotate: Vec -> Vec, i: nat)
    requires i <= |cs|
    ensures var e := Stroked(d, cs, r0, rotate, i);
      && d.ops <= e.ops
      && (forall j :: |d.ops| <= j < |e.ops| ==> e.ops[j] == SetColorOp || e.ops[j] == DrawLineOp)
      && e == d.(ops := e.ops, colors := e.colors, lines := e.lines, color := e.color)
  {
    if i > 0 {
      StrokedOps(d, cs, r0, rotate, i - 1);
      StrokeStep(Stroked(d, cs, r0, rotate, i - 1), cs[i - 1], Turn(rotate, r0, i - 1), Turn(rotate, r0, i));
    }
  }

  /** Recording the strokes and then one more colour call ends in the strokes followed by that colour. */
  lemma StrokesThenColorRecord(d: Drawer, cs: seq<Color>, r0: Vec, rotate: Vec -> Vec, c: Color)
    ensures Record(d, Strokes(cs, r0, rotate, |cs|) + [SetColorCmd(c)])
         == Done(SetColor(Stroked(d, cs, r0, rotate, |cs|), c))
  {
    StrokedRecords(d, cs, r0, rotate, |cs|);
    RecordAppend(d, Strokes(cs, r0, rotate, |cs|), [SetColorCmd(c)]);
    assert [SetColorCmd(c)][..0] == [];
  }

  /** What the strokes followed by restoring the starting colour leave in the drawer. */
  lemma StrokedThenReset(d: Drawer, cs: seq<Color>, r0: Vec, rotate: Vec -> Vec)
    ensures var e := SetColor(Stroked(d, cs, r0, rotate, |cs|), d.color);
      && e.color == d.color
      && e.lines == d.lines + SegmentLines(r0, rotate, |cs|)
      && d.ops <= e.ops
      && (forall j :: |d.ops| <= j < |e.ops| ==> e.ops[j] == SetColorOp || e.ops[j] == DrawLineOp)
      && e == d.(ops := e.ops, colors := e.colors, lines := e.lines)
  {
    var s := Stroked(d, cs, r0, rotate, |cs|);
    StrokedLines(d, cs, r0, rotate, |cs|);
    StrokedOps(d, cs, r0, rotate, |cs|);
  }

  /** All `k` strokes followed by restoring the starting colour: the drawer the circle leaves. */
  lemma CircleEnds(d: Drawer, r0: Vec, rotate: Vec -> Vec, isFront: Vec -> bool, k: nat)
    ensures var e := SetColor(Stroked(d, SegmentColors(d.color, r0, rotate, isFront, k), r0, rotate, k), d.color);
      && e.color == d.color
      && e.lines == d.lines + SegmentLines(r0, rotate, k)
      && d.ops <= e.ops
      && (forall j :: |d.ops| <= j < |e.ops| ==> e.ops[j] == SetColorOp || e.ops[j] == DrawLineOp)
      && e == d.(ops := e.ops, colors := e.colors, lines := e.lines)
      && Record(d, CircleCalls(d.color, r0, rotate, isFront, k)) == Done(e)
  {
    var cs := SegmentColors(d.color, r0, rotate, isFront, k);
    StrokedThenReset(d, cs, r0, rotate);
    StrokesThenColorRecord(d, cs, r0, rotate, d.color);
  }

  /**
   * The colour of one segment as the loop picks it: the original colour with
   * its alpha scaled by 1 in front of the camera, by 0.1 behind it, and by
   * their average where the segment crosses from one side to the other.
   */
  method FacingColor(orig: Color, front: bool, nextFront: bool) returns (c: Color)
    ensures c.r == orig.r && c.g == orig.g && c.b == orig.b
    ensures front && nextFront ==> c.a == orig.a
    ensures !front && !nextFront ==> c.a == orig.a / 10.0
    ensures front != nextFront ==> c.a == orig.a * 0.55
  {
    c := WithAlpha(orig, SegmentAlpha(orig, front, nextFront));
  }

  /** The colour `FacingColor` promises is the one `SegmentAlpha` defines: the two descriptions agree. */
  lemma FacingIsSegmentAlpha(orig: Color, front: bool, nextFront: bool, c: Color)
    requires c.r == orig.r && c.g == orig.g && c.b == orig.b
    requires front && nextFront ==> c.a == orig.a
    requires !front && !nextFront ==> c.a == orig.a / 10.0
    requires front != nextFront ==> c.a == orig.a * 0.55
    ensures c == WithAlpha(orig, SegmentAlpha(orig, front, nextFront))
  {
  }

  /**
   * `DrawCameraAwareWireCircle`: `r0` is the start direction times the
   * radius, `rotate` the rotation by 360/numSegments degrees about the normal
   * and `isFront` the signed-angle test against the camera. Records
   * numSegments + 1 lines (in 32-bit arithmetic, so none at `int.MaxValue`),
   * only colour changes besides them, and leaves the
   * colour as it found it.
   */
  method DrawCameraAwareWireCircle(d: Drawer, r0: Vec, rotate: Vec -> Vec, isFront: Vec -> bool,
                                   numSegments: int) returns (e: Drawer)
    ensures var k := CircleSegments(numSegments);
      && e.color == d.color
      && e.lines == d.lines + SegmentLines(r0, rotate, k)
      && d.ops <= e.ops
      && (forall j :: |d.ops| <= j < |e.ops| ==> e.ops[j] == SetColorOp || e.ops[j] == DrawLineOp)
      && e == d.(ops := e.ops, colors := e.colors, lines := e.lines)
      && Record(d, CircleCalls(d.color, r0, rotate, isFront, k)) == Done(e)
  {
    var k := CircleSegments(numSegments);
    e := DrawSegments(d, r0, rotate, isFront, k);
    CircleEnds(d, r0, rotate, isFront, k);
    e := SetColor(e, d.color);
  }

  /** The loop of `DrawCameraAwareWireCircle`: `k` segments, each drawn in the colour its facing gives it. */
  method DrawSegments(d: Drawer, r0: Vec, rotate: Vec -> Vec, isFront: Vec -> bool, k: nat) returns (e: Drawer)
    ensures e == Stroked(d, SegmentColors(d.color, r0, rotate, isFront, k), r0, rotate, k)
  {
    var orig := d.color;
    ghost var cs := SegmentColors(orig, r0, rotate, isFront, k);
    var r := r0;
    e := d;
    var i := 0;
    while i < k
      invariant 0 <= i <= k
      invariant r == Turn(rotate, r0, i)
      invariant e == Stroked(d, cs, r0, rotate, i)
    {
      var nextR := rotate(r);
      var c := FacingColor(orig, isFront(r), isFront(nextR));
      FacingIsSegmentAlpha(orig, isFront(r), isFront(nextR), c);
      StrokedNext(d, cs, r0, rotate, i);
      e := DrawLine(SetColor(e, c), r, nextR);
      r := nextR;
      i := i + 1;
    }
  }
}
