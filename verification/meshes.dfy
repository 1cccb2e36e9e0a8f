/**
 * The meshes the gizmo manager builds once when it is enabled: a solid unit
 * cube made of six quads, a wire cube made of its twelve edges, and a wire
 * sphere made of three great circles. Vertex positions are exact reals; the
 * sines and cosines of the sphere's rim are supplied by the caller.
 */
module Meshes {
  import opened Geometry

  datatype Topology = Quads | Lines

  /** A generated mesh: its vertex list, its index list and how the indices are grouped. */
  datatype MeshData = MeshData(verts: seq<Vec>, indexes: seq<int>, topology: Topology)

  datatype Axis = X | Y | Z

  /** One of the six axis directions (`Vector3.forward`, `-Vector3.right`, ...). */
  datatype Dir = Dir(axis: Axis, positive: bool)

  function DirVec(d: Dir): Vec
  {
    var s := if d.positive then 1.0 else -1.0;
    match d.axis
    case X => Vec(s, 0.0, 0.0)
    case Y => Vec(0.0, s, 0.0)
    case Z => Vec(0.0, 0.0, s)
  }

  function Flip(d: Dir): (f: Dir)
    ensures DirVec(f) == Neg(DirVec(d))
  {
    d.(positive := !d.positive)
  }

  function Coord(v: Vec, a: Axis): real
  {
    match a
    case X => v.x
    case Y => v.y
    case Z => v.z
  }

  /** How many coordinates of `u` and `v` differ. */
  function Differences(u: Vec, v: Vec): (n: nat)
    ensures n <= 3
    ensures n == 0 <==> u == v
  {
    (if u.x != v.x then 1 else 0) + (if u.y != v.y then 1 else 0) + (if u.z != v.z then 1 else 0)
  }

  /** `u` and `v` are the two ends of one edge of the cube [-0.5, 0.5]³. */
  predicate CubeEdge(u: Vec, v: Vec)
  {
    IsCorner(u) && IsCorner(v) && Differences(u, v) == 1
  }

  /** A corner of the unit cube centred on the origin. */
  predicate IsCorner(v: Vec)
  {
    (v.x == 0.5 || v.x == -0.5) && (v.y == 0.5 || v.y == -0.5) && (v.z == 0.5 || v.z == -0.5)
  }

  /** `v` is a corner on the face of the unit cube whose outward normal is `n`. */
  predicate OnFace(v: Vec, n: Dir)
  {
    IsCorner(v) && Coord(v, n.axis) == (if n.positive then 0.5 else -0.5)
  }

  // ---------------------------------------------------------------- cube

  /** `Vector3.forward`, `Vector3.right`, `Vector3.up`, in the order the cube loop uses them. */
  const CubeFaces: seq<Dir> := [Dir(Z, true), Dir(X, true), Dir(Y, true)]

  /** The four corners `addQuad` adds, in the order it adds them. */
  function QuadCorners(normal: Vec, axis1: Vec, axis2: Vec): seq<Vec>
  {
    [ Scale(Add(Add(normal, axis1), axis2), 0.5),
      Scale(Add(Add(normal, axis1), Neg(axis2)), 0.5),
      Scale(Add(Add(normal, Neg(axis1)), Neg(axis2)), 0.5),
      Scale(Add(Add(normal, Neg(axis1)), axis2), 0.5) ]
  }

  /**
   * `addQuad`: the four new indices name the four new vertices, in order,
   * so a quad's indices always follow on from the vertices before it.
   */
  method AddQuad(verts: seq<Vec>, indexes: seq<int>, normal: Vec, axis1: Vec, axis2: Vec)
    returns (verts': seq<Vec>, indexes': seq<int>)
    ensures |verts'| == |verts| + 4 && verts'[..|verts|] == verts
    ensures |indexes'| == |indexes| + 4 && indexes'[..|indexes|] == indexes
    ensures forall k :: |indexes| <= k < |indexes'| ==> indexes'[k] == |verts| + (k - |indexes|)
    ensures forall k :: |indexes| <= k < |indexes'| ==> verts'[indexes'[k]] == QuadCorners(normal, axis1, axis2)[k - |indexes|]
  {
    indexes' := indexes + [|verts| + 0];
    indexes' := indexes' + [|verts| + 1];
    indexes' := indexes' + [|verts| + 2];
    indexes' := indexes' + [|verts| + 3];
    var q := QuadCorners(normal, axis1, axis2);
    verts' := verts + [q[0]];
    verts' := verts' + [q[1]];
    verts' := verts' + [q[2]];
    verts' := verts' + [q[3]];
  }

  /** What `AddQuad` promises, restated as the appended vertex and index lists. */
  lemma QuadAppended(verts: seq<Vec>, indexes: seq<int>, verts': seq<Vec>, indexes': seq<int>, q: seq<Vec>)
    requires |q| == 4
    requires |verts'| == |verts| + 4 && verts'[..|verts|] == verts
    requires |indexes'| == |indexes| + 4 && indexes'[..|indexes|] == indexes
    requires forall k :: |indexes| <= k < |indexes'| ==> indexes'[k] == |verts| + (k - |indexes|)
    requires forall k :: |indexes| <= k < |indexes'| ==> verts'[indexes'[k]] == q[k - |indexes|]
    ensures verts' == verts + q
    ensures indexes' == indexes + [|verts|, |verts| + 1, |verts| + 2, |verts| + 3]
  {
    forall i | |verts| <= i < |verts'|
      ensures verts'[i] == q[i - |verts|]
    {
      assert indexes'[|indexes| + (i - |verts|)] == i;
    }
    assert verts' == verts'[..|verts|] + verts'[|verts|..];
  }

  /** Four corners on the face with normal `n`, each joined to the next and the last to the first by a cube edge. */
  predicate FaceLoop(v0: Vec, v1: Vec, v2: Vec, v3: Vec, n: Dir)
  {
    && OnFace(v0, n) && OnFace(v1, n) && OnFace(v2, n) && OnFace(v3, n)
    && CubeEdge(v0, v1) && CubeEdge(v1, v2) && CubeEdge(v2, v3) && CubeEdge(v3, v0)
  }

  /**
   * For three different axes, the quad `addQuad` builds is a face of the
   * unit cube, walked once around: all four corners lie on the face with
   * outward normal `n`, and consecutive corners are joined by cube edges.
   */
  lemma QuadIsFace(n: Dir, a1: Dir, a2: Dir)
    requires n.axis != a1.axis && n.axis != a2.axis && a1.axis != a2.axis
    ensures var q := QuadCorners(DirVec(n), DirVec(a1), DirVec(a2));
      FaceLoop(q[0], q[1], q[2], q[3], n)
  {
    match n.axis
    case X => {
      if a1.axis == Y { QuadIsFaceXYZ(n, a1, a2); } else { QuadIsFaceXZY(n, a1, a2); }
    }
    case Y => {
      if a1.axis == X { QuadIsFaceYXZ(n, a1, a2); } else { QuadIsFaceYZX(n, a1, a2); }
    }
    case Z => {
      if a1.axis == X { QuadIsFaceZXY(n, a1, a2); } else { QuadIsFaceZYX(n, a1, a2); }
    }
  }

  lemma QuadIsFaceXYZ(n: Dir, a1: Dir, a2: Dir)
    requires n.axis == X && a1.axis == Y && a2.axis == Z
    ensures var q := QuadCorners(DirVec(n), DirVec(a1), DirVec(a2)); FaceLoop(q[0], q[1], q[2], q[3], n)
  {
    if n.positive {
      if a1.positive { if a2.positive { } else { } } else { if a2.positive { } else { } }
    } else {
      if a1.positive { if a2.positive { } else { } } else { if a2.positive { } else { } }
    }
  }

  lemma QuadIsFaceXZY(n: Dir, a1: Dir, a2: Dir)
    requires n.axis == X && a1.axis == Z && a2.axis == Y
    ensures var q := QuadCorners(DirVec(n), DirVec(a1), DirVec(a2)); FaceLoop(q[0], q[1], q[2], q[3], n)
  {
    if n.positive {
      if a1.positive { if a2.positive { } else { } } else { if a2.positive { } else { } }
    } else {
      if a1.positive { if a2.positive { } else { } } else { if a2.positive { } else { } }
    }
  }

  lemma QuadIsFaceYXZ(n: Dir, a1: Dir, a2: Dir)
    requires n.axis == Y && a1.axis == X && a2.axis == Z
    ensures var q := QuadCorners(DirVec(n), DirVec(a1), DirVec(a2)); FaceLoop(q[0], q[1], q[2], q[3], n)
  {
    if n.positive {
      if a1.positive { if a2.positive { } else { } } else { if a2.positive { } else { } }
    } else {
      if a1.positive { if a2.positive { } else { } } else { if a2.positive { } else { } }
    }
  }

  lemma QuadIsFaceYZX(n: Dir, a1: Dir, a2: Dir)
    requires n.axis == Y && a1.axis == Z && a2.axis == X
    ensures var q := QuadCorners(DirVec(n), DirVec(a1), DirVec(a2)); FaceLoop(q[0], q[1], q[2], q[3], n)
  {
    if n.positive {
      if a1.positive { if a2.positive { } else { } } else { if a2.positive { } else { } }
    } else {
      if a1.positive { if a2.positive { } else { } } else { if a2.positive { } else { } }
    }
  }

  lemma QuadIsFaceZXY(n: Dir, a1: Dir, a2: Dir)
    requires n.axis == Z && a1.axis == X && a2.axis == Y
    ensures var q := QuadCorners(DirVec(n), DirVec(a1), DirVec(a2)); FaceLoop(q[0], q[1], q[2], q[3], n)
  {
    if n.positive {
      if a1.positive { if a2.positive { } else { } } else { if a2.positive { } else { } }
    } else {
      if a1.positive { if a2.positive { } else { } } else { if a2.positive { } else { } }
    }
  }

  lemma QuadIsFaceZYX(n: Dir, a1: Dir, a2: Dir)
    requires n.axis == Z && a1.axis == Y && a2.axis == X
    ensures var q := QuadCorners(DirVec(n), DirVec(a1), DirVec(a2)); FaceLoop(q[0], q[1], q[2], q[3], n)
  {
    if n.positive {
      if a1.positive { if a2.positive { } else { } } else { if a2.positive { } else { } }
    } else {
      if a1.positive { if a2.positive { } else { } } else { if a2.positive { } else { } }
    }
  }

  /** The outward normal of the `q`-th quad of the cube. */
  function CubeNormal(q: nat): Dir
    requires q < 6
  {
    if q % 2 == 0 then CubeFaces[q / 2] else Flip(CubeFaces[q / 2])
  }

  /** The six quads have six different normals, so together they are the whole cube surface. */
  lemma CubeNormalsDistinct()
    ensures forall q, q' :: 0 <= q < q' < 6 ==> CubeNormal(q) != CubeNormal(q')
  {
    assert CubeNormal(0) == Dir(Z, true) && CubeNormal(1) == Dir(Z, false);
    assert CubeNormal(2) == Dir(X, true) && CubeNormal(3) == Dir(X, false);
    assert CubeNormal(4) == Dir(Y, true) && CubeNormal(5) == Dir(Y, false);
  }

  /** Every one of the six directions is the normal of some quad of the cube. */
  function FaceIndex(n: Dir): (q: nat)
    ensures q < 6 && CubeNormal(q) == n
  {
    var q := match n.axis case Z => 0 case X => 2 case Y => 4;
    if n.positive then q else q + 1
  }

  /** Quad `q` of `verts` is the face of the cube with normal `n`, walked around in order. */
  predicate QuadOnFace(verts: seq<Vec>, q: nat, n: Dir)
    requires 4 * q + 4 <= |verts|
  {
    FaceLoop(verts[4 * q], verts[4 * q + 1], verts[4 * q + 2], verts[4 * q + 3], n)
  }

  /** The quad just appended to `verts` is the face its normal names, and the earlier quads stay where they were. */
  lemma AppendQuad(verts: seq<Vec>, n: Dir, a1: Dir, a2: Dir, normals: seq<Dir>)
    requires |verts| == 4 * |normals|
    requires forall q :: 0 <= q < |normals| ==> QuadOnFace(verts, q, normals[q])
    requires n.axis != a1.axis && n.axis != a2.axis && a1.axis != a2.axis
    ensures var all := verts + QuadCorners(DirVec(n), DirVec(a1), DirVec(a2));
      forall q :: 0 <= q < |normals| + 1 ==> QuadOnFace(all, q, (normals + [n])[q])
  {
    var c := QuadCorners(DirVec(n), DirVec(a1), DirVec(a2));
    var all := verts + c;
    QuadIsFace(n, a1, a2);
    forall q | 0 <= q < |normals| + 1 ensures QuadOnFace(all, q, (normals + [n])[q]) {
      if q < |normals| {
        assert all[4 * q] == verts[4 * q] && all[4 * q + 1] == verts[4 * q + 1];
        assert all[4 * q + 2] == verts[4 * q + 2] && all[4 * q + 3] == verts[4 * q + 3];
      } else {
        assert all[4 * q] == c[0] && all[4 * q + 1] == c[1] && all[4 * q + 2] == c[2] && all[4 * q + 3] == c[3];
      }
    }
  }

  /** The normals of the first `2i` quads of the cube. */
  function CubeNormals(i: nat): (ns: seq<Dir>)
    requires i <= 3
    ensures |ns| == 2 * i
    ensures forall q :: 0 <= q < 2 * i ==> ns[q] == CubeNormal(q)
  {
    if i == 0 then [] else CubeNormals(i - 1) + [CubeFaces[i - 1], Flip(CubeFaces[i - 1])]
  }

  /** The three face directions the cube loop uses at step `i`: `faces[i]`, `faces[(i+1)%3]`, `faces[(i+2)%3]`. */
  function CubeFrame(i: nat): (f: (Dir, Dir, Dir))
    requires i < 3
    ensures f.0 == CubeFaces[i]
    ensures f.0.axis != f.1.axis && f.0.axis != f.2.axis && f.1.axis != f.2.axis
  {
    (CubeFaces[i], CubeFaces[(i + 1) % 3], CubeFaces[(i + 2) % 3])
  }

  /**
   * One `addQuad` call of the cube loop, with the directions its three
   * vectors point along: the new quad is the face with normal `n`, and the
   * indices stay 0, 1, 2, ... in order.
   */
  method AddFaceQuad(verts: seq<Vec>, indexes: seq<int>, normal: Vec, axis1: Vec, axis2: Vec,
                     n: Dir, a1: Dir, a2: Dir, normals: seq<Dir>)
    returns (verts': seq<Vec>, indexes': seq<int>)
    requires normal == DirVec(n) && axis1 == DirVec(a1) && axis2 == DirVec(a2)
    requires n.axis != a1.axis && n.axis != a2.axis && a1.axis != a2.axis
    requires |verts| == 4 * |normals| && indexes == seq(|verts|, k => k)
    requires forall q :: 0 <= q < |normals| ==> QuadOnFace(verts, q, normals[q])
    ensures |verts'| == |verts| + 4 && indexes' == seq(|verts'|, k => k)
    ensures forall q :: 0 <= q < |normals| + 1 ==> QuadOnFace(verts', q, (normals + [n])[q])
  {
    AppendQuad(verts, n, a1, a2, normals);
    verts', indexes' := AddQuad(verts, indexes, normal, axis1, axis2);
    QuadAppended(verts, indexes, verts', indexes', QuadCorners(normal, axis1, axis2));
  }

  /**
   * One step of the cube loop: the quad facing `faces[i]` and the quad
   * facing away from it, each a face of the cube with that normal.
   */
  method AddFacePair(verts: seq<Vec>, indexes: seq<int>, i: nat) returns (verts': seq<Vec>, indexes': seq<int>)
    requires i < 3
    requires |verts| == 8 * i && indexes == seq(8 * i, k => k)
    requires forall q :: 0 <= q < 2 * i ==> QuadOnFace(verts, q, CubeNormal(q))
    ensures |verts'| == 8 * (i + 1) && indexes' == seq(8 * (i + 1), k => k)
    ensures forall q :: 0 <= q < 2 * (i + 1) ==> QuadOnFace(verts', q, CubeNormal(q))
  {
    var (n, a1, a2) := CubeFrame(i);
    verts', indexes' := AddFaceQuad(verts, indexes, DirVec(n), Neg(DirVec(a1)), DirVec(a2), n, Flip(a1), a2, CubeNormals(i));
    verts', indexes' := AddFaceQuad(verts', indexes', Neg(DirVec(n)), DirVec(a1), DirVec(a2), Flip(n), a1, a2, CubeNormals(i) + [n]);
    assert CubeNormals(i) + [n] + [Flip(n)] == CubeNormals(i + 1);
    assert forall q :: 0 <= q < 2 * (i + 1) ==> (CubeNormals(i) + [n] + [Flip(n)])[q] == CubeNormal(q);
  }

  /**
   * The cube part of `generateMeshes`: for each of the three face
   * directions, one quad facing it and one facing away. The result has 24
   * vertices with indices 0..23 in order, and quad `q` is the face of the
   * unit cube with normal `CubeNormal(q)`.
   */
  method GenerateCube() returns (m: MeshData)
    ensures m.topology == Quads
    ensures |m.verts| == 24
    ensures m.indexes == seq(24, k => k)
    ensures forall q :: 0 <= q < 6 ==> QuadOnFace(m.verts, q, CubeNormal(q))
  {
    var verts: seq<Vec> := [];
    var indexes: seq<int> := [];
    for i := 0 to 3
      invariant |verts| == 8 * i
      invariant indexes == seq(8 * i, k => k)
      invariant forall q :: 0 <= q < 2 * i ==> QuadOnFace(verts, q, CubeNormal(q))
    {
      verts, indexes := AddFacePair(verts, indexes, i);
    }
    m := MeshData(verts, indexes, Quads);
  }

  // ----------------------------------------------------------- wire cube

  /** The sign the corner loop uses at step `s` of a `for (d = 1; d >= -1; d -= 2)` loop. */
  function StepSign(s: nat): real
    requires s < 2
  {
    if s == 0 then 1.0 else -1.0
  }

  /** The corner the wire-cube loop adds at position `4a + 2b + c`. */
  function WireCorner(a: nat, b: nat, c: nat): Vec
    requires a < 2 && b < 2 && c < 2
  {
    Scale(Vec(StepSign(a), StepSign(b), StepSign(c)), 0.5)
  }

  /** `addCorner`: the three edges from corner `a` to `b`, `c` and `d`. */
  function AddCorner(indexes: seq<int>, a: int, b: int, c: int, d: int): (r: seq<int>)
    ensures |r| == |indexes| + 6
    ensures r[..|indexes|] == indexes
    ensures r[|indexes|..] == [a, b, a, c, a, d]
  {
    indexes + [a, b] + [a, c] + [a, d]
  }

  /** The eight corners in the wire-cube loop's order: x outermost, each coordinate +0.5 before -0.5. */
  const WireCubeCorners: seq<Vec> :=
    [ Vec(0.5, 0.5, 0.5), Vec(0.5, 0.5, -0.5), Vec(0.5, -0.5, 0.5), Vec(0.5, -0.5, -0.5),
      Vec(-0.5, 0.5, 0.5), Vec(-0.5, 0.5, -0.5), Vec(-0.5, -0.5, 0.5), Vec(-0.5, -0.5, -0.5) ]

  /** The wire cube's 24 indices: three edges out of each of the corners 0, 3, 5 and 6. */
  const WireCubeEdgeList: seq<int> :=
    [0, 1, 0, 2, 0, 4, 3, 1, 3, 2, 3, 7, 5, 1, 5, 4, 5, 7, 6, 2, 6, 4, 6, 7]

  /** The two corners the innermost wire-cube loop adds for fixed x and y steps. */
  function CornerColumn(a: nat, b: nat): seq<Vec>
    requires a < 2 && b < 2
  {
    [WireCorner(a, b, 0), WireCorner(a, b, 1)]
  }

  /** The corners the wire-cube loops add for the first `a` x steps. */
  function CornerSlabs(a: nat): (vs: seq<Vec>)
    requires a <= 2
    ensures |vs| == 4 * a
  {
    if a == 0 then [] else CornerSlabs(a - 1) + CornerColumn(a - 1, 0) + CornerColumn(a - 1, 1)
  }

  /** The innermost wire-cube loop: z runs over +0.5 then -0.5. */
  method AddCornerColumn(verts: seq<Vec>, a: nat, b: nat) returns (verts': seq<Vec>)
    requires a < 2 && b < 2
    ensures verts' == verts + CornerColumn(a, b)
  {
    verts' := verts;
    var dx, dy := StepSign(a), StepSign(b);
    for c := 0 to 2
      invariant verts' == verts + CornerColumn(a, b)[..c]
    {
      var dz := StepSign(c);
      verts' := verts' + [Scale(Vec(dx, dy, dz), 0.5)];
    }
  }

  /** The middle wire-cube loop: y runs over +0.5 then -0.5, each with both z steps. */
  method AddCornerSlab(verts: seq<Vec>, a: nat) returns (verts': seq<Vec>)
    requires a < 2
    ensures verts' == verts + CornerColumn(a, 0) + CornerColumn(a, 1)
  {
    verts' := AddCornerColumn(verts, a, 0);
    verts' := AddCornerColumn(verts', a, 1);
  }

  /** The three nested corner loops of the wire cube, outermost over x. */
  method GenerateWireCorners() returns (verts: seq<Vec>)
    ensures verts == WireCubeCorners
  {
    verts := [];
    for a := 0 to 2
      invariant verts == CornerSlabs(a)
    {
      verts := AddCornerSlab(verts, a);
    }
    CornerSlabsAreCorners();
  }

  /**
   * The wire-cube part of `generateMeshes`: the eight corners in loop order
   * and the index list of the four `addCorner` calls.
   */
  method GenerateWireCube() returns (m: MeshData)
    ensures m.topology == Lines
    ensures m.verts == WireCubeCorners
    ensures m.indexes == WireCubeEdgeList
  {
    var verts := GenerateWireCorners();
    var indexes := AddCorner([], 0, 1, 2, 4);
    indexes := AddCorner(indexes, 3, 1, 2, 7);
    indexes := AddCorner(indexes, 5, 1, 4, 7);
    indexes := AddCorner(indexes, 6, 2, 4, 7);
    m := MeshData(verts, indexes, Lines);
  }

  /** The loops' eight corners, in order, are `WireCubeCorners`. */
  lemma CornerSlabsAreCorners()
    ensures CornerSlabs(2) == WireCubeCorners
  {
  }

  /** Index pairs (a, b) and (c, d) name the same undirected edge. */
  predicate SameEdge(a: int, b: int, c: int, d: int)
  {
    (a == c && b == d) || (a == d && b == c)
  }

  /**
   * Every pair of `idx` (read as consecutive pairs) from pair `p` on names
   * two vertices of `v` that form a cube edge. A recursive check that
   * evaluates on a concrete list.
   */
  predicate CubeEdgesFrom(idx: seq<int>, v: seq<Vec>, p: nat)
    decreases |idx| - 2 * p
  {
    2 * p + 1 >= |idx| ||
    (&& 0 <= idx[2 * p] < |v| && 0 <= idx[2 * p + 1] < |v|
     && CubeEdge(v[idx[2 * p]], v[idx[2 * p + 1]])
     && CubeEdgesFrom(idx, v, p + 1))
  }

  /** Edge `p` of `idx` is not repeated by any edge from `p'` on. */
  predicate UnrepeatedFrom(idx: seq<int>, p: nat, p': nat)
    requires 2 * p + 1 < |idx|
    decreases |idx| - 2 * p'
  {
    2 * p' + 1 >= |idx| ||
    (!SameEdge(idx[2 * p], idx[2 * p + 1], idx[2 * p'], idx[2 * p' + 1]) && UnrepeatedFrom(idx, p, p' + 1))
  }

  /** No edge of `idx` from pair `p` on is repeated later, in either direction. */
  predicate DistinctEdgesFrom(idx: seq<int>, p: nat)
    decreases |idx| - 2 * p
  {
    2 * p + 1 >= |idx| || (UnrepeatedFrom(idx, p, p + 1) && DistinctEdgesFrom(idx, p + 1))
  }

  /** What the recursive check `CubeEdgesFrom` guarantees, stated for all pairs at once. */
  lemma {:induction false} CubeEdgesFromMeans(idx: seq<int>, v: seq<Vec>, p: nat)
    requires CubeEdgesFrom(idx, v, p)
    ensures forall q :: p <= q && 2 * q + 1 < |idx| ==>
      0 <= idx[2 * q] < |v| && 0 <= idx[2 * q + 1] < |v| && CubeEdge(v[idx[2 * q]], v[idx[2 * q + 1]])
    decreases |idx| - 2 * p
  {
    if 2 * p + 1 < |idx| {
      CubeEdgesFromMeans(idx, v, p + 1);
    }
  }

  lemma {:induction false} UnrepeatedFromMeans(idx: seq<int>, p: nat, p': nat)
    requires 2 * p + 1 < |idx|
    requires UnrepeatedFrom(idx, p, p')
    ensures forall q :: p' <= q && 2 * q + 1 < |idx| ==> !SameEdge(idx[2 * p], idx[2 * p + 1], idx[2 * q], idx[2 * q + 1])
    decreases |idx| - 2 * p'
  {
    if 2 * p' + 1 < |idx| {
      UnrepeatedFromMeans(idx, p, p' + 1);
    }
  }

  /** What the recursive check `DistinctEdgesFrom` guarantees, stated for all pairs of pairs at once. */
  lemma {:induction false} DistinctEdgesFromMeans(idx: seq<int>, p: nat)
    requires DistinctEdgesFrom(idx, p)
    ensures forall q, q' :: p <= q < q' && 2 * q' + 1 < |idx| ==>
      !SameEdge(idx[2 * q], idx[2 * q + 1], idx[2 * q'], idx[2 * q' + 1])
    decreases |idx| - 2 * p
  {
    if 2 * p + 1 < |idx| {
      DistinctEdgesFromMeans(idx, p + 1);
      UnrepeatedFromMeans(idx, p, p + 1);
    }
  }

  /** Every pair of the wire cube's indices joins two corners of the cube that differ in exactly one coordinate. */
  lemma WireCubeIsCubeEdges()
    ensures |WireCubeEdgeList| == 24
    ensures forall p :: 0 <= p < 12 ==>
      0 <= WireCubeEdgeList[2 * p] < 8 && 0 <= WireCubeEdgeList[2 * p + 1] < 8 &&
      CubeEdge(WireCubeCorners[WireCubeEdgeList[2 * p]], WireCubeCorners[WireCubeEdgeList[2 * p + 1]])
  {
    var idx, v := WireCubeEdgeList, WireCubeCorners;
    assert CubeEdgesFrom(idx, v, 12) && CubeEdgesFrom(idx, v, 11) && CubeEdgesFrom(idx, v, 10);
    assert CubeEdgesFrom(idx, v, 9) && CubeEdgesFrom(idx, v, 8) && CubeEdgesFrom(idx, v, 7);
    assert CubeEdgesFrom(idx, v, 6) && CubeEdgesFrom(idx, v, 5) && CubeEdgesFrom(idx, v, 4);
    assert CubeEdgesFrom(idx, v, 3) && CubeEdgesFrom(idx, v, 2) && CubeEdgesFrom(idx, v, 1);
    assert CubeEdgesFrom(idx, v, 0);
    CubeEdgesFromMeans(WireCubeEdgeList, WireCubeCorners, 0);
  }

  /** No edge of the wire cube is listed twice, in either direction: its twelve pairs are the cube's twelve edges. */
  lemma WireCubeEdgesDistinct()
    ensures forall p, p' :: 0 <= p < p' < 12 ==>
      !SameEdge(WireCubeEdgeList[2 * p], WireCubeEdgeList[2 * p + 1], WireCubeEdgeList[2 * p'], WireCubeEdgeList[2 * p' + 1])
  {
    var idx := WireCubeEdgeList;
    assert UnrepeatedFrom(idx, 11, 12) && UnrepeatedFrom(idx, 10, 11) && UnrepeatedFrom(idx, 9, 10);
    assert UnrepeatedFrom(idx, 8, 9) && UnrepeatedFrom(idx, 7, 8) && UnrepeatedFrom(idx, 6, 7);
    assert UnrepeatedFrom(idx, 5, 6) && UnrepeatedFrom(idx, 4, 5) && UnrepeatedFrom(idx, 3, 4);
    assert UnrepeatedFrom(idx, 2, 3) && UnrepeatedFrom(idx, 1, 2) && UnrepeatedFrom(idx, 0, 1);
    assert DistinctEdgesFrom(idx, 9) && DistinctEdgesFrom(idx, 6) && DistinctEdgesFrom(idx, 3);
    assert DistinctEdgesFrom(idx, 0);
    DistinctEdgesFromMeans(WireCubeEdgeList, 0);
  }

  // --------------------------------------------------------- wire sphere

  /** `CIRCLE_RESOLUTION`: rim points per great circle of the wire sphere. */
  const CircleResolution := 32

  /**
   * The vertex a wire-sphere line starting at vertex `p` ends at: three
   * vertices on, wrapping round past the last vertex. This is the source's
   * `(p + 3) % totalVerts` for every `p` below `totalVerts`.
   */
  function NextOnCircle(p: nat, resolution: nat): (q: nat)
    requires p < 3 * resolution
    ensures q < 3 * resolution
  {
    if p + 3 < 3 * resolution then p + 3 else p + 3 - 3 * resolution
  }

  /** Euclidean remainder below twice the modulus: one subtraction at most. */
  lemma ModOnce(x: nat, n: nat)
    requires 0 < n && x < 2 * n
    ensures x % n == if x < n then x else x - n
  {
  }

  /** `NextOnCircle` is the source's `% totalVerts` whenever the sphere has at least one rim point per circle. */
  lemma NextOnCircleIsMod(p: nat, resolution: nat)
    requires p < 3 * resolution
    ensures NextOnCircle(p, resolution) == (p + 3) % (3 * resolution)
  {
    ModOnce(p + 3, 3 * resolution);
  }

  /**
   * The wire-sphere part of `generateMeshes` for `resolution` rim points
   * per circle. `rim(i)` is (0.5 cos θ, 0.5 sin θ) for the `i`-th angle θ.
   * Vertex 3i+j is rim point `i` of circle `j` (j = 0 in the xy-plane, 1 in
   * the yz-plane, 2 in the xz-plane), and line `p` joins vertex `p` to vertex
   * p+3, wrapping around.
   */
  method GenerateWireSphere(resolution: nat, rim: nat -> (real, real)) returns (m: MeshData)
    ensures m.topology == Lines
    ensures |m.verts| == 3 * resolution
    ensures |m.indexes| == 6 * resolution
    ensures forall p :: 0 <= p < 3 * resolution ==>
      m.indexes[2 * p] == p && m.indexes[2 * p + 1] == NextOnCircle(p, resolution)
    ensures forall i :: 0 <= i < resolution ==>
      && m.verts[3 * i] == Vec(rim(i).0, rim(i).1, 0.0)
      && m.verts[3 * i + 1] == Vec(0.0, rim(i).0, rim(i).1)
      && m.verts[3 * i + 2] == Vec(rim(i).0, 0.0, rim(i).1)
  {
    var totalVerts := resolution * 3;
    var verts: seq<Vec> := [];
    var indexes: seq<int> := [];
    for i := 0 to resolution
      invariant |verts| == 3 * i && |indexes| == 6 * i
      invariant forall p :: 0 <= p < 3 * i ==> indexes[2 * p] == p && indexes[2 * p + 1] == NextOnCircle(p, resolution)
      invariant forall i' :: 0 <= i' < i ==>
        && verts[3 * i'] == Vec(rim(i').0, rim(i').1, 0.0)
        && verts[3 * i' + 1] == Vec(0.0, rim(i').0, rim(i').1)
        && verts[3 * i' + 2] == Vec(rim(i').0, 0.0, rim(i').1)
    {
      var (dx, dy) := rim(i);
      for j := 0 to 3
        invariant |indexes| == 6 * i + 2 * j
        invariant forall p :: 0 <= p < 3 * i + j ==> indexes[2 * p] == p && indexes[2 * p + 1] == NextOnCircle(p, resolution)
      {
        ModOnce(i * 3 + j, totalVerts);
        NextOnCircleIsMod(i * 3 + j, resolution);
        indexes := indexes + [(i * 3 + j + 0) % totalVerts];
        indexes := indexes + [(i * 3 + j + 3) % totalVerts];
      }
      verts := verts + [Vec(dx, dy, 0.0)];
      verts := verts + [Vec(0.0, dx, dy)];
      verts := verts + [Vec(dx, 0.0, dy)];
    }
    m := MeshData(verts, indexes, Lines);
  }

  /** Dividing 3i+j by 3, for j < 3, gives back i and j. */
  lemma DivideByThree(i: nat, j: nat)
    requires j < 3
    ensures (3 * i + j) / 3 == i && (3 * i + j) % 3 == j
  {
  }

  /**
   * Every line of the wire sphere stays on one great circle and joins
   * consecutive rim points of it: a line starting at vertex `p` (rim point
   * p / 3 of circle p % 3) ends on the same circle at rim point
   * (p / 3 + 1) mod resolution. So each circle is a closed loop of
   * `resolution` lines and no line crosses between circles.
   */
  lemma WireSphereLinesFollowCircles(resolution: nat, p: nat)
    requires p < 3 * resolution
    ensures var q := NextOnCircle(p, resolution);
      q % 3 == p % 3 && q / 3 == (p / 3 + 1) % resolution
  {
    var i, j := p / 3, p % 3;
    DivideByThree(i, j);
    assert p == 3 * i + j;
    assert i < resolution;
    ModOnce(i + 1, resolution);
    var i' := if i + 1 < resolution then i + 1 else 0;
    assert NextOnCircle(p, resolution) == 3 * i' + j;
    DivideByThree(i', j);
  }
}
