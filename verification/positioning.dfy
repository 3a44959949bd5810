/**
 * UV-to-surface projection on the liver mesh: the barycentric solve per triangle, the
 * containment test, the scan that returns the first triangle containing a UV point, the
 * nearest-centroid and nearest-vertex fallbacks, the surface normal at a UV point, and
 * the camera position derived from it.
 *
 * Two copies of the solver exist. `Positioning.ts` (the camera helpers) rejects triangles
 * whose denominator is below 1e-10 in magnitude and accepts weights summing to 1 within
 * 1e-6; `DeityMarkers.ts` rejects only a zero denominator (an infinite reciprocal),
 * accepts within 0.001, and computes the same weights by a differently ordered solve.
 * `Solver` names the copy.
 *
 * A geometry attribute is a sequence of per-vertex values, absent when the geometry has
 * no such attribute. `distanceTo` is replaced by the squared distance, which orders
 * points the same way.
 */
module Positioning {
  import opened Wrappers
  import opened Vectors

  datatype Solver = CameraSolver | MarkerSolver

  datatype Mesh = Mesh(
    vertexCount: nat,
    positions: Option<seq<Vec3>>,
    uvs: Option<seq<Vec2>>,
    normals: Option<seq<Vec3>>,
    index: Option<seq<int>>,
    matrixWorld: Affine)

  /** Every index names a vertex, in whole triangles. */
  predicate IndexValid(idx: seq<int>, n: int)
  {
    |idx| % 3 == 0 && forall k :: 0 <= k < |idx| ==> 0 <= idx[k] < n
  }

  /** A buffer geometry: every present attribute holds one entry per vertex. */
  predicate WellFormed(m: Mesh)
  {
    (m.positions.Some? ==> |m.positions.value| == m.vertexCount) &&
    (m.uvs.Some? ==> |m.uvs.value| == m.vertexCount) &&
    (m.normals.Some? ==> |m.normals.value| == m.vertexCount) &&
    (m.index.Some? ==> IndexValid(m.index.value, m.vertexCount))
  }

  // ---------------------------------------------------------------------------------
  // Barycentric coordinates

  /** The Gram determinant `|v0|^2 |v1|^2 - (v0.v1)^2` of the edges `b - a` and `c - a`. */
  function Denominator(a: Vec2, b: Vec2, c: Vec2): real
  {
    var v0 := Sub2(b, a);
    var v1 := Sub2(c, a);
    Dot2(v0, v0) * Dot2(v1, v1) - Dot2(v0, v1) * Dot2(v0, v1)
  }

  /** Whether the solver produces weights for a triangle: no UV point matters. */
  predicate NonDegenerate(s: Solver, a: Vec2, b: Vec2, c: Vec2)
  {
    match s
    case CameraSolver => !(-0.0000000001 < Denominator(a, b, c) < 0.0000000001)
    case MarkerSolver => Denominator(a, b, c) != 0.0
  }

  /**
   * The solve of `getBarycentricCoordinates` in `Positioning.ts`, from the dot products
   * of the edges `v0 = b - a`, `v1 = c - a` and the offset `v2 = p - a`.
   */
  function CameraSolve(d00: real, d01: real, d11: real, d20: real, d21: real): (r: Option<Vec3>)
    ensures r.Some? <==> !(-0.0000000001 < d00 * d11 - d01 * d01 < 0.0000000001)
    ensures r.Some? ==> r.value.x + r.value.y + r.value.z == 1.0
  {
    var denom := d00 * d11 - d01 * d01;
    if -0.0000000001 < denom < 0.0000000001 then None
    else
      var v := (d11 * d20 - d01 * d21) / denom;
      var w := (d00 * d21 - d01 * d20) / denom;
      Some(Vec3(1.0 - v - w, v, w))
  }

  /** `getBarycentricCoordinates` of `Positioning.ts`: weights of `a`, `b`, `c`. */
  function CameraWeights(p: Vec2, a: Vec2, b: Vec2, c: Vec2): Option<Vec3>
  {
    var v0 := Sub2(b, a);
    var v1 := Sub2(c, a);
    var v2 := Sub2(p, a);
    CameraSolve(Dot2(v0, v0), Dot2(v0, v1), Dot2(v1, v1), Dot2(v2, v0), Dot2(v2, v1))
  }

  /**
   * The solve of `getBarycentricCoordinates` in `DeityMarkers.ts`, from the dot products
   * of the edges `v0 = c - a`, `v1 = b - a` and the offset `v2 = p - a`; the weights come
   * back reordered as the weights of `a`, `b`, `c`.
   */
  function MarkerSolve(dot00: real, dot01: real, dot02: real, dot11: real, dot12: real): (r: Option<Vec3>)
    ensures r.Some? <==> dot00 * dot11 - dot01 * dot01 != 0.0
    ensures r.Some? ==> r.value.x + r.value.y + r.value.z == 1.0
  {
    var d := dot00 * dot11 - dot01 * dot01;
    if d == 0.0 then None
    else
      var invDenom := 1.0 / d;
      var u := (dot11 * dot02 - dot01 * dot12) * invDenom;
      var v := (dot00 * dot12 - dot01 * dot02) * invDenom;
      Some(Vec3(1.0 - u - v, v, u))
  }

  /** `getBarycentricCoordinates` of `DeityMarkers.ts`. */
  function MarkerWeights(p: Vec2, a: Vec2, b: Vec2, c: Vec2): Option<Vec3>
  {
    var v0 := Sub2(c, a);
    var v1 := Sub2(b, a);
    var v2 := Sub2(p, a);
    MarkerSolve(Dot2(v0, v0), Dot2(v0, v1), Dot2(v0, v2), Dot2(v1, v1), Dot2(v1, v2))
  }

  lemma DotSymmetric(u: Vec2, v: Vec2)
    ensures Dot2(u, v) == Dot2(v, u)
  {
  }

  function Weights(s: Solver, p: Vec2, a: Vec2, b: Vec2, c: Vec2): (r: Option<Vec3>)
    ensures r.Some? <==> NonDegenerate(s, a, b, c)
    ensures r.Some? ==> r.value.x + r.value.y + r.value.z == 1.0
  {
    match s
    case CameraSolver => CameraWeights(p, a, b, c)
    case MarkerSolver =>
      DotSymmetric(Sub2(c, a), Sub2(b, a));
      MarkerWeights(p, a, b, c)
  }

  /** `isInsideTriangle`: all weights non-negative and their sum within the tolerance of 1. */
  predicate Inside(s: Solver, w: Vec3)
  {
    var e := w.x + w.y + w.z - 1.0;
    var tolerance := match s case CameraSolver => 0.000001 case MarkerSolver => 0.001;
    w.x >= 0.0 && w.y >= 0.0 && w.z >= 0.0 && -tolerance < e < tolerance
  }

  /** With exact weights the sum test never rejects: inside means all weights non-negative. */
  lemma InsideIsSignTest(s: Solver, p: Vec2, a: Vec2, b: Vec2, c: Vec2)
    requires NonDegenerate(s, a, b, c)
    ensures var w := Weights(s, p, a, b, c).value;
      Inside(s, w) <==> w.x >= 0.0 && w.y >= 0.0 && w.z >= 0.0
  {
  }

  /** The camera solve at the three corners, where the offset is zero or one of the edges. */
  lemma CameraSolveAtCorners(d00: real, d01: real, d11: real)
    requires !(-0.0000000001 < d00 * d11 - d01 * d01 < 0.0000000001)
    ensures CameraSolve(d00, d01, d11, 0.0, 0.0) == Some(Vec3(1.0, 0.0, 0.0))
    ensures CameraSolve(d00, d01, d11, d00, d01) == Some(Vec3(0.0, 1.0, 0.0))
    ensures CameraSolve(d00, d01, d11, d01, d11) == Some(Vec3(0.0, 0.0, 1.0))
  {
    var D := d00 * d11 - d01 * d01;
    assert (d11 * d00 - d01 * d01) / D == 1.0;
    assert (d00 * d01 - d01 * d00) / D == 0.0;
    assert (d11 * d01 - d01 * d11) / D == 0.0;
    assert (d00 * d11 - d01 * d01) / D == 1.0;
  }

  /** The marker solve at the three corners. */
  lemma MarkerSolveAtCorners(dot00: real, dot01: real, dot11: real)
    requires dot00 * dot11 - dot01 * dot01 != 0.0
    ensures MarkerSolve(dot00, dot01, 0.0, dot11, 0.0) == Some(Vec3(1.0, 0.0, 0.0))
    ensures MarkerSolve(dot00, dot01, dot01, dot11, dot11) == Some(Vec3(0.0, 1.0, 0.0))
    ensures MarkerSolve(dot00, dot01, dot00, dot11, dot01) == Some(Vec3(0.0, 0.0, 1.0))
  {
    var D := dot00 * dot11 - dot01 * dot01;
    assert 1.0 / D * D == 1.0;
    assert (dot11 * dot01 - dot01 * dot11) * (1.0 / D) == 0.0;
    assert (dot00 * dot11 - dot01 * dot01) * (1.0 / D) == 1.0;
    assert (dot11 * dot00 - dot01 * dot01) * (1.0 / D) == 1.0;
    assert (dot00 * dot01 - dot01 * dot00) * (1.0 / D) == 0.0;
  }

  /** A corner's own UV gets all of the weight. */
  lemma WeightsAtCorners(s: Solver, a: Vec2, b: Vec2, c: Vec2)
    requires NonDegenerate(s, a, b, c)
    ensures Weights(s, a, a, b, c) == Some(Vec3(1.0, 0.0, 0.0))
    ensures Weights(s, b, a, b, c) == Some(Vec3(0.0, 1.0, 0.0))
    ensures Weights(s, c, a, b, c) == Some(Vec3(0.0, 0.0, 1.0))
  {
    var zero := Sub2(a, a);
    assert zero == Vec2(0.0, 0.0);
    match s
    case CameraSolver =>
      var v0 := Sub2(b, a);
      var v1 := Sub2(c, a);
      assert Dot2(zero, v0) == 0.0 && Dot2(zero, v1) == 0.0;
      DotSymmetric(v1, v0);
      CameraSolveAtCorners(Dot2(v0, v0), Dot2(v0, v1), Dot2(v1, v1));
    case MarkerSolver =>
      var v0 := Sub2(c, a);
      var v1 := Sub2(b, a);
      assert Dot2(v0, zero) == 0.0 && Dot2(v1, zero) == 0.0;
      DotSymmetric(v1, v0);
      DotSymmetric(v0, v1);
      MarkerSolveAtCorners(Dot2(v0, v0), Dot2(v0, v1), Dot2(v1, v1));
  }

  /** The marker solve's weights from its numerators `nu`, `nv` and reciprocal denominator `k`. */
  lemma MarkerSolveBy(dot00: real, dot01: real, dot02: real, dot11: real, dot12: real, nu: real, nv: real, k: real)
    requires dot00 * dot11 - dot01 * dot01 != 0.0
    requires k == 1.0 / (dot00 * dot11 - dot01 * dot01)
    requires nu == dot11 * dot02 - dot01 * dot12 && nv == dot00 * dot12 - dot01 * dot02
    ensures MarkerSolve(dot00, dot01, dot02, dot11, dot12) == Some(Vec3(1.0 - nu * k - nv * k, nv * k, nu * k))
  {
    var r := MarkerSolve(dot00, dot01, dot02, dot11, dot12);
    assert r.Some?;
    assert r.value.y == nv * k;
    assert r.value.z == nu * k;
  }

  /** The camera solve's weights from its numerators `nv`, `nw` and denominator `D`. */
  lemma CameraSolveBy(d00: real, d01: real, d11: real, d20: real, d21: real, nv: real, nw: real, D: real)
    requires D == d00 * d11 - d01 * d01 && !(-0.0000000001 < D < 0.0000000001)
    requires nv == d11 * d20 - d01 * d21 && nw == d00 * d21 - d01 * d20
    ensures CameraSolve(d00, d01, d11, d20, d21) == Some(Vec3(1.0 - nv / D - nw / D, nv / D, nw / D))
  {
    var r := CameraSolve(d00, d01, d11, d20, d21);
    assert r.Some?;
    assert r.value.y == nv / D;
    assert r.value.z == nw / D;
  }

  /** The two solves agree wherever the camera solve gives weights. */
  lemma SolvesAgree(d00: real, d01: real, d11: real, d20: real, d21: real)
    requires !(-0.0000000001 < d00 * d11 - d01 * d01 < 0.0000000001)
    ensures MarkerSolve(d11, d01, d21, d00, d20) == CameraSolve(d00, d01, d11, d20, d21)
  {
    var D := d00 * d11 - d01 * d01;
    var nv := d11 * d20 - d01 * d21;
    var nw := d00 * d21 - d01 * d20;
    assert d11 * d00 - d01 * d01 == D;
    var k := 1.0 / D;
    MarkerSolveBy(d11, d01, d21, d00, d20, nw, nv, k);
    CameraSolveBy(d00, d01, d11, d20, d21, nv, nw, D);
    DivideAsMultiply(nv, D);
    DivideAsMultiply(nw, D);
    assert nv / D == nv * k;
    assert nw / D == nw * k;
    assert Vec3(1.0 - nw * k - nv * k, nv * k, nw * k) == Vec3(1.0 - nv / D - nw / D, nv / D, nw / D);
  }

  /**
   * Where the camera solver gives weights the marker solver gives the same ones; it also
   * gives weights for nearly degenerate triangles the camera solver rejects.
   */
  lemma SolversAgree(p: Vec2, a: Vec2, b: Vec2, c: Vec2)
    requires NonDegenerate(CameraSolver, a, b, c)
    ensures NonDegenerate(MarkerSolver, a, b, c)
    ensures Weights(MarkerSolver, p, a, b, c) == Weights(CameraSolver, p, a, b, c)
  {
    var v0 := Sub2(b, a);
    var v1 := Sub2(c, a);
    var v2 := Sub2(p, a);
    DotSymmetric(v1, v0);
    DotSymmetric(v1, v2);
    DotSymmetric(v0, v2);
    SolvesAgree(Dot2(v0, v0), Dot2(v0, v1), Dot2(v1, v1), Dot2(v2, v0), Dot2(v2, v1));
  }

  lemma DivideAsMultiply(x: real, d: real)
    requires d != 0.0
    ensures x / d == x * (1.0 / d)
  {
  }

  // ---------------------------------------------------------------------------------
  // Triangles of an indexed geometry

  function TriangleCount(idx: seq<int>): nat
  {
    |idx| / 3
  }

  function CornerUV(uvs: seq<Vec2>, idx: seq<int>, t: int, j: int): Vec2
    requires IndexValid(idx, |uvs|) && 0 <= t < TriangleCount(idx) && 0 <= j < 3
  {
    uvs[idx[3 * t + j]]
  }

  function CornerPosition(ps: seq<Vec3>, idx: seq<int>, t: int, j: int): Vec3
    requires IndexValid(idx, |ps|) && 0 <= t < TriangleCount(idx) && 0 <= j < 3
  {
    ps[idx[3 * t + j]]
  }

  function TriangleWeights(s: Solver, uvs: seq<Vec2>, idx: seq<int>, uv: Vec2, t: int): Option<Vec3>
    requires IndexValid(idx, |uvs|) && 0 <= t < TriangleCount(idx)
  {
    Weights(s, uv, CornerUV(uvs, idx, t, 0), CornerUV(uvs, idx, t, 1), CornerUV(uvs, idx, t, 2))
  }

  predicate Contains(s: Solver, uvs: seq<Vec2>, idx: seq<int>, uv: Vec2, t: int)
    requires IndexValid(idx, |uvs|) && 0 <= t < TriangleCount(idx)
  {
    var w := TriangleWeights(s, uvs, idx, uv, t);
    w.Some? && Inside(s, w.value)
  }

  /** Which triangles contain `uv`, in index order. */
  function Hits(s: Solver, uvs: seq<Vec2>, idx: seq<int>, uv: Vec2): (hs: seq<bool>)
    requires IndexValid(idx, |uvs|)
    ensures |hs| == TriangleCount(idx)
  {
    seq(TriangleCount(idx), t requires 0 <= t < TriangleCount(idx) => Contains(s, uvs, idx, uv, t))
  }

  /** The first position from `t` on that holds. */
  function FirstTrue(bs: seq<bool>, t: nat): (r: Option<nat>)
    requires t <= |bs|
    decreases |bs| - t
    ensures r.Some? ==> t <= r.value < |bs| && bs[r.value]
    ensures forall k :: t <= k < |bs| && (r.None? || k < r.value) ==> !bs[k]
  {
    if t == |bs| then None
    else if bs[t] then Some(t)
    else FirstTrue(bs, t + 1)
  }

  /** A position that holds with nothing before it holding is the first one. */
  lemma FirstTrueIs(bs: seq<bool>, t: nat)
    requires t < |bs| && bs[t]
    requires forall k :: 0 <= k < t ==> !bs[k]
    ensures FirstTrue(bs, 0) == Some(t)
  {
  }

  /** The first triangle, in index order, that contains `uv`. */
  function FirstContaining(s: Solver, uvs: seq<Vec2>, idx: seq<int>, uv: Vec2): (r: Option<nat>)
    requires IndexValid(idx, |uvs|)
    ensures r.Some? ==> r.value < TriangleCount(idx) && Contains(s, uvs, idx, uv, r.value)
    ensures forall k :: 0 <= k < TriangleCount(idx) && (r.None? || k < r.value) ==> !Contains(s, uvs, idx, uv, k)
  {
    var hs := Hits(s, uvs, idx, uv);
    var r := FirstTrue(hs, 0);
    assert forall k :: 0 <= k < TriangleCount(idx) ==> hs[k] == Contains(s, uvs, idx, uv, k);
    r
  }

  /** The UV centroid `(uv1 + uv2 + uv3) * (1/3)` of a triangle. */
  function CentroidUV(uvs: seq<Vec2>, idx: seq<int>, t: int): Vec2
    requires IndexValid(idx, |uvs|) && 0 <= t < TriangleCount(idx)
  {
    var a := CornerUV(uvs, idx, t, 0);
    var b := CornerUV(uvs, idx, t, 1);
    var c := CornerUV(uvs, idx, t, 2);
    Vec2((a.x + b.x + c.x) * (1.0 / 3.0), (a.y + b.y + c.y) * (1.0 / 3.0))
  }

  /** Squared UV distance from `uv` to each triangle's UV centroid, in index order. */
  function CentroidDistances(uvs: seq<Vec2>, idx: seq<int>, uv: Vec2): (ds: seq<real>)
    requires IndexValid(idx, |uvs|)
    ensures |ds| == TriangleCount(idx)
  {
    seq(TriangleCount(idx), t requires 0 <= t < TriangleCount(idx) => DistSq2(uv, CentroidUV(uvs, idx, t)))
  }

  /** Squared UV distance from `uv` to each vertex, in vertex order. */
  function VertexDistances(uvs: seq<Vec2>, uv: Vec2): (ds: seq<real>)
    ensures |ds| == |uvs|
  {
    seq(|uvs|, i requires 0 <= i < |uvs| => DistSq2(uv, uvs[i]))
  }

  /**
   * The earliest position of a minimum: the scan that replaces its best candidate only on
   * a strictly smaller value.
   */
  function ArgMinFirst(ds: seq<real>): (k: nat)
    requires |ds| > 0
    decreases |ds|
    ensures k < |ds|
    ensures forall j :: 0 <= j < |ds| ==> ds[k] <= ds[j]
    ensures forall j :: 0 <= j < k ==> ds[k] < ds[j]
  {
    if |ds| == 1 then 0
    else
      var k := ArgMinFirst(ds[..|ds| - 1]);
      if ds[|ds| - 1] < ds[k] then |ds| - 1 else k
  }

  /** Any position that is a minimum with nothing as small before it is the one the scan finds. */
  lemma ArgMinFirstUnique(ds: seq<real>, k: nat)
    requires k < |ds|
    requires forall j :: 0 <= j < |ds| ==> ds[k] <= ds[j]
    requires forall j :: 0 <= j < k ==> ds[k] < ds[j]
    ensures ArgMinFirst(ds) == k
  {
    var m := ArgMinFirst(ds);
    assert ds[m] <= ds[k] && ds[k] <= ds[m];
  }

  /** The point with barycentric weights `w` in triangle `t`, in world space. */
  function InterpolatedPoint(m: Affine, ps: seq<Vec3>, idx: seq<int>, t: int, w: Vec3): Vec3
    requires IndexValid(idx, |ps|) && 0 <= t < TriangleCount(idx)
  {
    ApplyPoint(m, Combine3(CornerPosition(ps, idx, t, 0), CornerPosition(ps, idx, t, 1), CornerPosition(ps, idx, t, 2), w))
  }

  /** The position centroid `(p1 + p2 + p3) * (1/3)` of triangle `t`, in world space. */
  function CentroidPoint(m: Affine, ps: seq<Vec3>, idx: seq<int>, t: int): Vec3
    requires IndexValid(idx, |ps|) && 0 <= t < TriangleCount(idx)
  {
    var sum := Add3(Add3(CornerPosition(ps, idx, t, 0), CornerPosition(ps, idx, t, 1)), CornerPosition(ps, idx, t, 2));
    ApplyPoint(m, Scale3(sum, 1.0 / 3.0))
  }

  /**
   * What `getWorldPositionFromUV` (and the marker copy, `uvToWorldPosition`) returns:
   * nothing without positions or UVs; for indexed geometry the interpolated point of the
   * first containing triangle, else the centroid of the triangle with the nearest UV
   * centroid; for non-indexed geometry the nearest vertex by UV.
   */
  function ProjectUV(s: Solver, mesh: Mesh, uv: Vec2): (r: Option<Vec3>)
    requires WellFormed(mesh)
    ensures r.None? <==>
      mesh.positions.None? || mesh.uvs.None? ||
      (mesh.index.Some? && TriangleCount(mesh.index.value) == 0) ||
      (mesh.index.None? && mesh.vertexCount == 0)
  {
    if mesh.positions.None? || mesh.uvs.None? then None
    else
      var ps := mesh.positions.value;
      var uvs := mesh.uvs.value;
      match mesh.index
      case Some(idx) => ProjectIndexed(s, mesh.matrixWorld, ps, uvs, idx, uv)
      case None =>
        if mesh.vertexCount == 0 then None
        else Some(ApplyPoint(mesh.matrixWorld, ps[ArgMinFirst(VertexDistances(uvs, uv))]))
  }

  /** The indexed case of `ProjectUV`. */
  function ProjectIndexed(s: Solver, m: Affine, ps: seq<Vec3>, uvs: seq<Vec2>, idx: seq<int>, uv: Vec2): (r: Option<Vec3>)
    requires |ps| == |uvs| && IndexValid(idx, |uvs|)
    ensures r.None? <==> TriangleCount(idx) == 0
  {
    match FirstContaining(s, uvs, idx, uv)
    case Some(t) => Some(InterpolatedPoint(m, ps, idx, t, TriangleWeights(s, uvs, idx, uv, t).value))
    case None =>
      if TriangleCount(idx) == 0 then None
      else Some(CentroidPoint(m, ps, idx, ArgMinFirst(CentroidDistances(uvs, idx, uv))))
  }

  /** A UV point inside a triangle lands on that triangle when no earlier triangle contains it. */
  lemma ProjectsOntoFirstContaining(s: Solver, mesh: Mesh, uv: Vec2, t: nat)
    requires WellFormed(mesh) && mesh.positions.Some? && mesh.uvs.Some? && mesh.index.Some?
    requires t < TriangleCount(mesh.index.value)
    requires Contains(s, mesh.uvs.value, mesh.index.value, uv, t)
    requires forall k :: 0 <= k < t ==> !Contains(s, mesh.uvs.value, mesh.index.value, uv, k)
    ensures ProjectUV(s, mesh, uv) ==
      Some(InterpolatedPoint(mesh.matrixWorld, mesh.positions.value, mesh.index.value, t,
                             TriangleWeights(s, mesh.uvs.value, mesh.index.value, uv, t).value))
  {
    FirstContainingIs(s, mesh.uvs.value, mesh.index.value, uv, t);
  }

  /**
   * A UV point that is the first containing triangle's corner lands exactly on that
   * corner's vertex.
   */
  lemma CornerProjectsOntoVertex(s: Solver, mesh: Mesh, t: nat, j: nat)
    requires WellFormed(mesh) && mesh.positions.Some? && mesh.uvs.Some? && mesh.index.Some?
    requires t < TriangleCount(mesh.index.value) && j < 3
    requires FirstContaining(s, mesh.uvs.value, mesh.index.value, CornerUV(mesh.uvs.value, mesh.index.value, t, j)) == Some(t)
    ensures ProjectUV(s, mesh, CornerUV(mesh.uvs.value, mesh.index.value, t, j)) ==
      Some(ApplyPoint(mesh.matrixWorld, CornerPosition(mesh.positions.value, mesh.index.value, t, j)))
  {
    var uvs := mesh.uvs.value;
    var idx := mesh.index.value;
    var a, b, c := CornerUV(uvs, idx, t, 0), CornerUV(uvs, idx, t, 1), CornerUV(uvs, idx, t, 2);
    WeightsAtCorners(s, a, b, c);
  }

  /** Without a containing triangle, the nearest UV centroid wins, the earliest on a tie. */
  lemma FallbackIsNearestCentroid(s: Solver, mesh: Mesh, uv: Vec2, t: nat)
    requires WellFormed(mesh) && mesh.positions.Some? && mesh.uvs.Some? && mesh.index.Some?
    requires t < TriangleCount(mesh.index.value)
    requires forall k :: 0 <= k < TriangleCount(mesh.index.value) ==> !Contains(s, mesh.uvs.value, mesh.index.value, uv, k)
    requires forall k :: 0 <= k < TriangleCount(mesh.index.value) ==>
      DistSq2(uv, CentroidUV(mesh.uvs.value, mesh.index.value, t)) <= DistSq2(uv, CentroidUV(mesh.uvs.value, mesh.index.value, k))
    requires forall k :: 0 <= k < t ==>
      DistSq2(uv, CentroidUV(mesh.uvs.value, mesh.index.value, t)) < DistSq2(uv, CentroidUV(mesh.uvs.value, mesh.index.value, k))
    ensures ProjectUV(s, mesh, uv) == Some(CentroidPoint(mesh.matrixWorld, mesh.positions.value, mesh.index.value, t))
  {
    var ds := CentroidDistances(mesh.uvs.value, mesh.index.value, uv);
    ArgMinFirstUnique(ds, t);
  }

  // ---------------------------------------------------------------------------------
  // The scanning loops

  /**
   * The vertex scan: `minDistance` starts at infinity (here `None`) and is replaced on a
   * strictly smaller distance; nothing is found when there are no vertices.
   */
  method NearestVertex(uvs: seq<Vec2>, uv: Vec2) returns (closest: Option<nat>)
    ensures closest.None? <==> |uvs| == 0
    ensures closest.Some? ==> closest.value == ArgMinFirst(VertexDistances(uvs, uv))
  {
    ghost var ds := VertexDistances(uvs, uv);
    var minDistance: Option<real> := None;
    var closestVertex := 0;
    var i := 0;
    while i < |uvs|
      invariant 0 <= i <= |uvs|
      invariant minDistance.None? <==> i == 0
      invariant i > 0 ==> closestVertex == ArgMinFirst(ds[..i]) && minDistance.value == ds[closestVertex]
    {
      var distance := DistSq2(uv, uvs[i]);
      assert ds[..i + 1][..i] == ds[..i];
      if minDistance.None? || distance < minDistance.value {
        minDistance := Some(distance);
        closestVertex := i;
      }
      i := i + 1;
    }
    assert ds[..|uvs|] == ds;
    if minDistance.Some? {
      return Some(closestVertex);
    }
    return None;
  }

  /** The scan's first hit is the triangle it stops at. */
  lemma FirstContainingIs(s: Solver, uvs: seq<Vec2>, idx: seq<int>, uv: Vec2, t: nat)
    requires IndexValid(idx, |uvs|) && t < TriangleCount(idx)
    requires Contains(s, uvs, idx, uv, t)
    requires forall k :: 0 <= k < t ==> !Contains(s, uvs, idx, uv, k)
    ensures FirstContaining(s, uvs, idx, uv) == Some(t)
  {
    var hs := Hits(s, uvs, idx, uv);
    assert forall k :: 0 <= k < t ==> !hs[k];
    FirstTrueIs(hs, t);
  }

  /** One step of the scan: the prefix minimum grows by one entry. */
  lemma ArgMinFirstStep(ds: seq<real>, t: nat)
    requires 0 < t < |ds|
    ensures ArgMinFirst(ds[..t + 1]) ==
      (if ds[t] < ds[ArgMinFirst(ds[..t])] then t else ArgMinFirst(ds[..t]))
  {
    assert ds[..t + 1][..t] == ds[..t];
  }

  /** The triangle scan of `getWorldPositionFromUV` / `uvToWorldPosition` for indexed geometry. */
  method ScanTriangles(s: Solver, m: Affine, positions: seq<Vec3>, uvs: seq<Vec2>, indices: seq<int>, uv: Vec2)
    returns (r: Option<Vec3>)
    requires |positions| == |uvs| && IndexValid(indices, |uvs|)
    ensures r == ProjectIndexed(s, m, positions, uvs, indices, uv)
  {
    ghost var ds := CentroidDistances(uvs, indices, uv);
    ghost var hits := Hits(s, uvs, indices, uv);
    var bestMatch: Option<(real, Vec3)> := None;
    var i := 0;
    ghost var t := 0;
    ghost var best := 0;
    while i < |indices|
      invariant i == 3 * t && 0 <= t <= TriangleCount(indices)
      invariant FirstTrue(hits, t) == FirstTrue(hits, 0)
      invariant bestMatch.None? <==> t == 0
      invariant t > 0 ==> best == ArgMinFirst(ds[..t])
      invariant t > 0 ==> bestMatch.value == (ds[best], CentroidPoint(m, positions, indices, best))
    {
      var baryCoords := TriangleWeights(s, uvs, indices, uv, i / 3);
      assert i / 3 == t;
      if baryCoords.Some? && Inside(s, baryCoords.value) {
        assert hits[t];
        return Some(InterpolatedPoint(m, positions, indices, i / 3, baryCoords.value));
      }
      assert !hits[t];
      var distance := DistSq2(uv, CentroidUV(uvs, indices, i / 3));
      if t > 0 {
        ArgMinFirstStep(ds, t);
      }
      if bestMatch.None? || distance < bestMatch.value.0 {
        bestMatch := Some((distance, CentroidPoint(m, positions, indices, i / 3)));
        best := t;
      }
      i := i + 3;
      t := t + 1;
    }
    assert ds[..t] == ds;
    if bestMatch.Some? {
      return Some(bestMatch.value.1);
    }
    return None;
  }

  /** `getWorldPositionFromUV` / `uvToWorldPosition`. */
  method GetWorldPositionFromUV(s: Solver, mesh: Mesh, uv: Vec2) returns (r: Option<Vec3>)
    requires WellFormed(mesh)
    ensures r == ProjectUV(s, mesh, uv)
  {
    if mesh.positions.None? || mesh.uvs.None? {
      return None;
    }
    var positions := mesh.positions.value;
    var uvs := mesh.uvs.value;
    if mesh.index.Some? {
      r := ScanTriangles(s, mesh.matrixWorld, positions, uvs, mesh.index.value, uv);
    } else {
      var closestVertex := NearestVertex(uvs, uv);
      if closestVertex.Some? {
        return Some(ApplyPoint(mesh.matrixWorld, positions[closestVertex.value]));
      }
      return None;
    }
  }

  // ---------------------------------------------------------------------------------
  // Surface normal and camera position

  /**
   * What `getSurfaceNormalAtUV` returns: nothing without normals or UVs; the normalised
   * interpolated normal of the first containing triangle (camera solver); otherwise the
   * normal of the nearest vertex by UV, or nothing when there are no vertices. Both are
   * carried into world space by `transformDirection`.
   */
  function SurfaceNormal(mesh: Mesh, uv: Vec2, length: Vec3 -> real): (r: Option<Vec3>)
    requires WellFormed(mesh)
    ensures mesh.normals.None? || mesh.uvs.None? ==> r.None?
  {
    if mesh.normals.None? || mesh.uvs.None? then None
    else
      var ns := mesh.normals.value;
      var uvs := mesh.uvs.value;
      var hit := if mesh.index.Some? then FirstContaining(CameraSolver, uvs, mesh.index.value, uv) else None;
      if hit.Some? then
        var idx := mesh.index.value;
        var t := hit.value;
        var w := TriangleWeights(CameraSolver, uvs, idx, uv, t).value;
        var n := Normalize3(Combine3(CornerPosition(ns, idx, t, 0), CornerPosition(ns, idx, t, 1), CornerPosition(ns, idx, t, 2), w), length);
        Some(TransformDirection(mesh.matrixWorld, n, length))
      else if mesh.vertexCount == 0 then None
      else Some(TransformDirection(mesh.matrixWorld, ns[ArgMinFirst(VertexDistances(uvs, uv))], length))
  }

  /** Every normal handed out has unit length, unless the world matrix sends it to zero. */
  lemma SurfaceNormalIsUnit(mesh: Mesh, uv: Vec2, length: Vec3 -> real)
    requires WellFormed(mesh) && IsLength(length)
    ensures var r := SurfaceNormal(mesh, uv, length);
      r.Some? ==> r.value == Zero3 || NormSq3(r.value) == 1.0
  {
    if mesh.normals.Some? && mesh.uvs.Some? {
      var ns := mesh.normals.value;
      var uvs := mesh.uvs.value;
      var hit := if mesh.index.Some? then FirstContaining(CameraSolver, uvs, mesh.index.value, uv) else None;
      if hit.Some? {
        var idx := mesh.index.value;
        var t := hit.value;
        var w := TriangleWeights(CameraSolver, uvs, idx, uv, t).value;
        var n := Normalize3(Combine3(CornerPosition(ns, idx, t, 0), CornerPosition(ns, idx, t, 1), CornerPosition(ns, idx, t, 2), w), length);
        TransformDirectionUnit(mesh.matrixWorld, n, length);
      } else if mesh.vertexCount != 0 {
        TransformDirectionUnit(mesh.matrixWorld, ns[ArgMinFirst(VertexDistances(uvs, uv))], length);
      }
    }
  }

  /** `getSurfaceNormalAtUV`. */
  method GetSurfaceNormalAtUV(mesh: Mesh, uv: Vec2, length: Vec3 -> real) returns (r: Option<Vec3>)
    requires WellFormed(mesh)
    ensures r == SurfaceNormal(mesh, uv, length)
  {
    if mesh.normals.None? || mesh.uvs.None? {
      return None;
    }
    var normals := mesh.normals.value;
    var uvs := mesh.uvs.value;
    if mesh.index.Some? {
      var indices := mesh.index.value;
      ghost var hits := Hits(CameraSolver, uvs, indices, uv);
      var i := 0;
      ghost var t := 0;
      while i < |indices|
        invariant i == 3 * t && 0 <= t <= TriangleCount(indices)
        invariant FirstTrue(hits, t) == FirstTrue(hits, 0)
      {
        var baryCoords := TriangleWeights(CameraSolver, uvs, indices, uv, i / 3);
        assert i / 3 == t;
        if baryCoords.Some? && Inside(CameraSolver, baryCoords.value) {
          assert hits[t];
          var interpolated := Combine3(CornerPosition(normals, indices, i / 3, 0), CornerPosition(normals, indices, i / 3, 1),
                                       CornerPosition(normals, indices, i / 3, 2), baryCoords.value);
          return Some(TransformDirection(mesh.matrixWorld, Normalize3(interpolated, length), length));
        }
        assert !hits[t];
        i := i + 3;
        t := t + 1;
      }
      assert FirstContaining(CameraSolver, uvs, indices, uv).None?;
    }
    var closestVertex := NearestVertex(uvs, uv);
    if closestVertex.Some? {
      return Some(TransformDirection(mesh.matrixWorld, normals[closestVertex.value], length));
    }
    return None;
  }

  /**
   * The blend of `calculateCameraPositionFromSurface` for a surface normal `n`:
   * `0.8 * (p + 0.8 n) + 0.2 * (p + 0.8 d)` with `d` the unit direction from `p` to the
   * origin, the liver's centre.
   */
  function ViewpointFromNormal(p: Vec3, n: Vec3, length: Vec3 -> real): Vec3
  {
    var cameraDistance := 0.8;
    var idealPosition := Add3(p, Scale3(n, cameraDistance));
    var directionToCenter := Normalize3(Sub3(Zero3, p), length);
    var centerViewPosition := Add3(p, Scale3(directionToCenter, cameraDistance));
    var interpolationFactor := 0.8;
    Add3(Scale3(idealPosition, interpolationFactor), Scale3(centerViewPosition, 1.0 - interpolationFactor))
  }

  /**
   * `calculateCameraPositionFromSurface`: the blend above when the surface has a normal
   * at `uv`, else `p + (0, 0.5, 1)`.
   */
  function CameraPositionFromSurface(mesh: Mesh, uv: Vec2, p: Vec3, length: Vec3 -> real): (r: Vec3)
    requires WellFormed(mesh)
    ensures SurfaceNormal(mesh, uv, length).None? ==> r == Add3(p, Vec3(0.0, 0.5, 1.0))
    ensures SurfaceNormal(mesh, uv, length).Some? ==> r == ViewpointFromNormal(p, SurfaceNormal(mesh, uv, length).value, length)
  {
    match SurfaceNormal(mesh, uv, length)
    case None => Add3(p, Vec3(0.0, 0.5, 1.0))
    case Some(n) => ViewpointFromNormal(p, n, length)
  }

  /** `|0.64 n + 0.16 d|^2 <= 0.64` for vectors of length at most 1. */
  lemma BlendReach(n: Vec3, d: Vec3)
    requires NormSq3(n) <= 1.0 && NormSq3(d) <= 1.0
    ensures NormSq3(Add3(Scale3(n, 0.64), Scale3(d, 0.16))) <= 0.64
  {
    var e := Add3(Scale3(n, 0.64), Scale3(d, 0.16));
    assert NormSq3(e) == 0.4096 * NormSq3(n) + 0.2048 * Dot3(n, d) + 0.0256 * NormSq3(d);
    DotBound(n, d);
    NormSqNonNegative(n);
    NormSqNonNegative(d);
  }

  lemma ViewpointOffset(p: Vec3, n: Vec3, d: Vec3)
    ensures Sub3(Add3(Scale3(Add3(p, Scale3(n, 0.8)), 0.8), Scale3(Add3(p, Scale3(d, 0.8)), 1.0 - 0.8)), p)
         == Add3(Scale3(n, 0.64), Scale3(d, 0.16))
  {
  }

  /** For a unit (or zero) normal the blended viewpoint lies within 0.8 of the surface point. */
  lemma ViewpointWithinReach(p: Vec3, n: Vec3, length: Vec3 -> real)
    requires IsLength(length)
    requires n == Zero3 || NormSq3(n) == 1.0
    ensures NormSq3(Sub3(ViewpointFromNormal(p, n, length), p)) <= 0.64
  {
    var d := Normalize3(Sub3(Zero3, p), length);
    NormalizeUnit(Sub3(Zero3, p), length);
    assert NormSq3(d) <= 1.0;
    assert NormSq3(n) <= 1.0;
    ViewpointOffset(p, n, d);
    BlendReach(n, d);
  }

  /** The camera stays within the 0.8 viewing distance of the surface point. */
  lemma CameraWithinViewingDistance(mesh: Mesh, uv: Vec2, p: Vec3, length: Vec3 -> real)
    requires WellFormed(mesh) && IsLength(length)
    requires SurfaceNormal(mesh, uv, length).Some?
    ensures NormSq3(Sub3(CameraPositionFromSurface(mesh, uv, p, length), p)) <= 0.64
  {
    SurfaceNormalIsUnit(mesh, uv, length);
    ViewpointWithinReach(p, SurfaceNormal(mesh, uv, length).value, length);
  }
}
