/**
 * The face-mesh buffers handed to the renderer: one vertex per face landmark
 * (position, texture coordinate and normal, each stored flat in a buffer of
 * reals), the triangles of a fixed table whose three corners all exist, and
 * per-vertex normals accumulated from the triangles' cross products.
 */
module MeshBuilder {
  import opened Vectors

  /** A detected face landmark in normalised image coordinates (x right, y down) and relative depth. */
  datatype LandmarkPoint = LandmarkPoint(x: real, y: real, z: real)

  /** The four buffers of a mesh; `indices` lists triangles as consecutive corner triples. */
  datatype MeshData = MeshData(vertices: array<real>, uvs: array<real>, indices: array<nat>, normals: array<real>)

  /*
   * The triangle table, section by section: forehead, left eye, right eye,
   * nose, upper lip, lower lip, left cheek, right cheek, jawline, chin.
   */

  const ForeheadTriangles1: seq<nat> := [
    10, 338, 297, 10, 297, 332, 10, 332, 284, 10, 284, 251, 10, 251, 389,
    10, 389, 356, 10, 356, 454, 10, 454, 323, 10, 323, 361, 10, 361, 288
  ]
  const ForeheadTriangles2: seq<nat> := [
    10, 288, 397, 10, 397, 365, 10, 365, 379, 10, 379, 378, 10, 378, 400,
    10, 400, 377, 10, 377, 152, 10, 152, 148, 10, 148, 176, 10, 176, 149
  ]
  const ForeheadTriangles3: seq<nat> := [
    10, 149, 150, 10, 150, 136, 10, 136, 172, 10, 172, 58, 10, 58, 132,
    10, 132, 93, 10, 93, 234, 10, 234, 127, 10, 127, 162, 10, 162, 21
  ]
  const ForeheadTriangles4: seq<nat> := [
    10, 21, 54, 10, 54, 103, 10, 103, 67, 10, 67, 109, 10, 109, 10
  ]
  const ForeheadTriangles: seq<nat> := ForeheadTriangles1 + ForeheadTriangles2 + ForeheadTriangles3 + ForeheadTriangles4

  const LeftEyeTriangles1: seq<nat> := [
    33, 7, 163, 33, 163, 144, 33, 144, 145, 33, 145, 153, 33, 153, 154,
    33, 154, 155, 33, 155, 133, 33, 133, 173, 33, 173, 157, 33, 157, 158
  ]
  const LeftEyeTriangles2: seq<nat> := [
    33, 158, 159, 33, 159, 160, 33, 160, 161, 33, 161, 246, 33, 246, 33
  ]
  const LeftEyeTriangles: seq<nat> := LeftEyeTriangles1 + LeftEyeTriangles2

  const RightEyeTriangles1: seq<nat> := [
    263, 249, 390, 263, 390, 373, 263, 373, 374, 263, 374, 380, 263, 380, 381,
    263, 381, 382, 263, 382, 362, 263, 362, 398, 263, 398, 384, 263, 384, 385
  ]
  const RightEyeTriangles2: seq<nat> := [
    263, 385, 386, 263, 386, 387, 263, 387, 388, 263, 388, 466, 263, 466, 263
  ]
  const RightEyeTriangles: seq<nat> := RightEyeTriangles1 + RightEyeTriangles2

  const NoseTriangles: seq<nat> := [
    1, 2, 98, 1, 98, 327, 2, 326, 327, 2, 327, 98,
    4, 5, 195, 4, 195, 197, 4, 197, 6, 4, 6, 168
  ]

  const UpperLipTriangles1: seq<nat> := [
    0, 267, 269, 0, 269, 270, 0, 270, 409, 0, 409, 291, 0, 291, 375,
    0, 375, 321, 0, 321, 405, 0, 405, 314, 0, 314, 17, 0, 17, 84
  ]
  const UpperLipTriangles2: seq<nat> := [
    0, 84, 181, 0, 181, 91, 0, 91, 146, 0, 146, 61, 0, 61, 185,
    0, 185, 40, 0, 40, 39, 0, 39, 37, 0, 37, 0
  ]
  const UpperLipTriangles: seq<nat> := UpperLipTriangles1 + UpperLipTriangles2

  const LowerLipTriangles1: seq<nat> := [
    14, 87, 178, 14, 178, 88, 14, 88, 95, 14, 95, 78, 14, 78, 191,
    14, 191, 80, 14, 80, 81, 14, 81, 82, 14, 82, 13, 14, 13, 312
  ]
  const LowerLipTriangles2: seq<nat> := [
    14, 312, 311, 14, 311, 310, 14, 310, 415, 14, 415, 308, 14, 308, 324,
    14, 324, 318, 14, 318, 402, 14, 402, 317, 14, 317, 14
  ]
  const LowerLipTriangles: seq<nat> := LowerLipTriangles1 + LowerLipTriangles2

  const LeftCheekTriangles: seq<nat> := [
    116, 117, 118, 116, 118, 119, 116, 119, 120, 116, 120, 121,
    116, 121, 128, 116, 128, 245, 116, 245, 193, 116, 193, 122
  ]

  const RightCheekTriangles: seq<nat> := [
    345, 346, 347, 345, 347, 348, 345, 348, 349, 345, 349, 350,
    345, 350, 357, 345, 357, 465, 345, 465, 417, 345, 417, 351
  ]

  const JawlineTriangles1: seq<nat> := [
    172, 136, 150, 172, 150, 149, 172, 149, 176, 172, 176, 148,
    172, 148, 152, 152, 377, 400, 152, 400, 378, 152, 378, 379
  ]
  const JawlineTriangles2: seq<nat> := [
    152, 379, 365, 152, 365, 397, 152, 397, 288
  ]
  const JawlineTriangles: seq<nat> := JawlineTriangles1 + JawlineTriangles2

  const ChinTriangles: seq<nat> := [
    17, 84, 181, 17, 181, 91, 17, 91, 146, 146, 61, 43, 146, 43, 106,
    17, 314, 405, 17, 405, 321, 17, 321, 375, 375, 291, 273, 375, 273, 335
  ]

  /** The whole triangle table, as one flat list of corner indices. */
  const FaceMeshTriangles: seq<nat> :=
    ForeheadTriangles + LeftEyeTriangles + RightEyeTriangles + NoseTriangles
    + UpperLipTriangles + LowerLipTriangles + LeftCheekTriangles + RightCheekTriangles
    + JawlineTriangles + ChinTriangles

  predicate AllBelow(s: seq<nat>, n: nat) {
    forall k :: 0 <= k < |s| ==> s[k] < n
  }

  /** The table holds 148 triangles, whose corners are all below 467, so inside the 468-point layout. */
  lemma TableShape()
    ensures |FaceMeshTriangles| == 444 && |FaceMeshTriangles| % 3 == 0
    ensures AllBelow(FaceMeshTriangles, 467)
  {
    UpperSectionsBelow();
    LowerSectionsBelow();
    var upper := ForeheadTriangles + LeftEyeTriangles + RightEyeTriangles + NoseTriangles + UpperLipTriangles;
    var lower := LowerLipTriangles + LeftCheekTriangles + RightCheekTriangles + JawlineTriangles + ChinTriangles;
    AllBelowAppend(ForeheadTriangles, LeftEyeTriangles, 467);
    AllBelowAppend(ForeheadTriangles + LeftEyeTriangles, RightEyeTriangles, 467);
    AllBelowAppend(ForeheadTriangles + LeftEyeTriangles + RightEyeTriangles, NoseTriangles, 467);
    AllBelowAppend(ForeheadTriangles + LeftEyeTriangles + RightEyeTriangles + NoseTriangles, UpperLipTriangles, 467);
    AllBelowAppend(upper, LowerLipTriangles, 467);
    AllBelowAppend(upper + LowerLipTriangles, LeftCheekTriangles, 467);
    AllBelowAppend(upper + LowerLipTriangles + LeftCheekTriangles, RightCheekTriangles, 467);
    AllBelowAppend(upper + LowerLipTriangles + LeftCheekTriangles + RightCheekTriangles, JawlineTriangles, 467);
    AllBelowAppend(upper + LowerLipTriangles + LeftCheekTriangles + RightCheekTriangles + JawlineTriangles, ChinTriangles, 467);
  }

  lemma UpperSectionsBelow()
    ensures AllBelow(ForeheadTriangles, 467) && AllBelow(LeftEyeTriangles, 467)
    ensures AllBelow(RightEyeTriangles, 467) && AllBelow(NoseTriangles, 467)
    ensures AllBelow(UpperLipTriangles, 467)
  {
    ForeheadBelow();
    EyesBelow();
    UpperLipBelow();
  }

  lemma ForeheadBelow()
    ensures AllBelow(ForeheadTriangles, 467)
  {
    assert AllBelow(ForeheadTriangles1, 467);
    assert AllBelow(ForeheadTriangles2, 467);
    AllBelowAppend(ForeheadTriangles1, ForeheadTriangles2, 467);
    assert AllBelow(ForeheadTriangles3, 467);
    AllBelowAppend(ForeheadTriangles1 + ForeheadTriangles2, ForeheadTriangles3, 467);
    assert AllBelow(ForeheadTriangles4, 467);
    AllBelowAppend(ForeheadTriangles1 + ForeheadTriangles2 + ForeheadTriangles3, ForeheadTriangles4, 467);
  }

  lemma EyesBelow()
    ensures AllBelow(LeftEyeTriangles, 467) && AllBelow(RightEyeTriangles, 467)
  {
    assert AllBelow(LeftEyeTriangles1, 467);
    assert AllBelow(LeftEyeTriangles2, 467);
    AllBelowAppend(LeftEyeTriangles1, LeftEyeTriangles2, 467);
    assert AllBelow(RightEyeTriangles1, 467);
    assert AllBelow(RightEyeTriangles2, 467);
    AllBelowAppend(RightEyeTriangles1, RightEyeTriangles2, 467);
  }

  lemma UpperLipBelow()
    ensures AllBelow(NoseTriangles, 467) && AllBelow(UpperLipTriangles, 467)
  {
    assert AllBelow(NoseTriangles, 467);
    assert AllBelow(UpperLipTriangles1, 467);
    assert AllBelow(UpperLipTriangles2, 467);
    AllBelowAppend(UpperLipTriangles1, UpperLipTriangles2, 467);
  }

  lemma LowerSectionsBelow()
    ensures AllBelow(LowerLipTriangles, 467) && AllBelow(LeftCheekTriangles, 467)
    ensures AllBelow(RightCheekTriangles, 467) && AllBelow(JawlineTriangles, 467)
    ensures AllBelow(ChinTriangles, 467)
  {
    LowerLipAndCheeksBelow();
    JawAndChinBelow();
  }

  lemma LowerLipAndCheeksBelow()
    ensures AllBelow(LowerLipTriangles, 467) && AllBelow(LeftCheekTriangles, 467)
    ensures AllBelow(RightCheekTriangles, 467)
  {
    assert AllBelow(LowerLipTriangles1, 467);
    assert AllBelow(LowerLipTriangles2, 467);
    AllBelowAppend(LowerLipTriangles1, LowerLipTriangles2, 467);
    assert AllBelow(LeftCheekTriangles, 467);
    assert AllBelow(RightCheekTriangles, 467);
  }

  lemma JawAndChinBelow()
    ensures AllBelow(JawlineTriangles, 467) && AllBelow(ChinTriangles, 467)
  {
    assert AllBelow(JawlineTriangles1, 467);
    assert AllBelow(JawlineTriangles2, 467);
    AllBelowAppend(JawlineTriangles1, JawlineTriangles2, 467);
    assert AllBelow(ChinTriangles, 467);
  }

  lemma AllBelowAppend(s1: seq<nat>, s2: seq<nat>, n: nat)
    requires AllBelow(s1, n) && AllBelow(s2, n)
    ensures AllBelow(s1 + s2, n)
  {
  }

  /** The table's degenerate triples, each repeating a corner, ending the forehead, eye and lip sections. */
  lemma TableHasDegenerateTriangles()
    ensures ForeheadTriangles4[12..] == [10, 109, 10]
    ensures LeftEyeTriangles2[12..] == [33, 246, 33]
    ensures RightEyeTriangles2[12..] == [263, 466, 263]
    ensures UpperLipTriangles2[24..] == [0, 37, 0]
    ensures LowerLipTriangles2[24..] == [14, 317, 14]
  {
  }

  // ---------------------------------------------------------------------------
  // Vertex attributes
  // ---------------------------------------------------------------------------

  /** A landmark's vertex position: x and y from [0,1] onto [-1,1] with y flipped upwards, depth halved and negated. */
  function Position(p: LandmarkPoint): Vec3 {
    Vec3((p.x - 0.5) * 2.0, -(p.y - 0.5) * 2.0, -p.z * 0.5)
  }

  /** A landmark's texture coordinate: the image point with v flipped. */
  function Uv(p: LandmarkPoint): (real, real) {
    (p.x, 1.0 - p.y)
  }

  function Positions(landmarks: seq<LandmarkPoint>): (ps: seq<Vec3>)
    ensures |ps| == |landmarks|
  {
    seq(|landmarks|, i requires 0 <= i < |landmarks| => Position(landmarks[i]))
  }

  function Uvs(landmarks: seq<LandmarkPoint>): (ts: seq<(real, real)>)
    ensures |ts| == |landmarks|
  {
    seq(|landmarks|, i requires 0 <= i < |landmarks| => Uv(landmarks[i]))
  }

  /** The texture coordinate is the vertex position moved from [-1,1] back onto [0,1]: one image point, two frames. */
  lemma UvFollowsPosition(p: LandmarkPoint)
    ensures Uv(p).0 == (Position(p).x + 1.0) / 2.0
    ensures Uv(p).1 == (Position(p).y + 1.0) / 2.0
  {
  }

  /** A landmark inside the image lands inside the [-1,1] square, with its texture coordinate inside [0,1]. */
  lemma PositionInClipSquare(p: LandmarkPoint)
    requires 0.0 <= p.x <= 1.0 && 0.0 <= p.y <= 1.0
    ensures -1.0 <= Position(p).x <= 1.0 && -1.0 <= Position(p).y <= 1.0
    ensures 0.0 <= Uv(p).0 <= 1.0 && 0.0 <= Uv(p).1 <= 1.0
  {
  }

  /** `a` holds the vectors `vs` as consecutive (x, y, z) triples. */
  predicate Stores3(a: seq<real>, vs: seq<Vec3>) {
    |a| == 3 * |vs| &&
    forall j :: 0 <= j < |vs| ==> a[3 * j] == vs[j].x && a[3 * j + 1] == vs[j].y && a[3 * j + 2] == vs[j].z
  }

  /** `a` holds the pairs `ps` as consecutive (u, v) pairs. */
  predicate Stores2(a: seq<real>, ps: seq<(real, real)>) {
    |a| == 2 * |ps| &&
    forall j :: 0 <= j < |ps| ==> a[2 * j] == ps[j].0 && a[2 * j + 1] == ps[j].1
  }

  /** Vertex `j` of a flat buffer. */
  function VertexAt(a: seq<real>, j: nat): Vec3
    requires 3 * j + 2 < |a|
  {
    Vec3(a[3 * j], a[3 * j + 1], a[3 * j + 2])
  }

  /** The vectors a flat buffer holds, three reals each. */
  function Unflatten3(a: seq<real>): (vs: seq<Vec3>)
    requires |a| % 3 == 0
    ensures Stores3(a, vs)
  {
    seq(|a| / 3, j requires 0 <= j < |a| / 3 => VertexAt(a, j))
  }

  /** A buffer stores exactly one list of vectors. */
  lemma StoresUnique(a: seq<real>, vs: seq<Vec3>)
    requires Stores3(a, vs)
    ensures |a| % 3 == 0 && Unflatten3(a) == vs
  {
    var ws := Unflatten3(a);
    assert |ws| == |vs|;
    forall j | 0 <= j < |vs|
      ensures ws[j] == vs[j]
    {
      assert ws[j] == VertexAt(a, j);
    }
  }

  /** Writing vector `v` over slot `i` of a buffer stores the list with `vs[i]` replaced. */
  lemma StoresUpdate(a: seq<real>, vs: seq<Vec3>, i: nat, v: Vec3)
    requires Stores3(a, vs) && i < |vs|
    ensures Stores3(a[3 * i := v.x][3 * i + 1 := v.y][3 * i + 2 := v.z], vs[i := v])
  {
  }

  // ---------------------------------------------------------------------------
  // Triangle filtering
  // ---------------------------------------------------------------------------

  /** The table's triangles whose three corners are all below `n`, in table order. */
  function KeptTriangles(table: seq<nat>, n: nat): (kept: seq<nat>)
    requires |table| % 3 == 0
    ensures |kept| % 3 == 0 && |kept| <= |table|
    ensures AllBelow(kept, n)
    decreases |table|
  {
    if |table| == 0 then []
    else
      var first, rest := FirstKept(table, n), KeptTriangles(table[3..], n);
      AllBelowAppend(first, rest, n);
      first + rest
  }

  /** The first triple of a table if its corners are all below `n`, else nothing. */
  function FirstKept(table: seq<nat>, n: nat): (first: seq<nat>)
    requires |table| >= 3
    ensures |first| == 0 || |first| == 3
    ensures AllBelow(first, n)
  {
    if table[0] < n && table[1] < n && table[2] < n then table[..3] else []
  }

  /** Filtering a concatenation filters each part. */
  lemma {:induction false} KeptTrianglesAppend(t1: seq<nat>, t2: seq<nat>, n: nat)
    requires |t1| % 3 == 0 && |t2| % 3 == 0
    ensures KeptTriangles(t1 + t2, n) == KeptTriangles(t1, n) + KeptTriangles(t2, n)
    decreases |t1|
  {
    if |t1| == 0 {
      assert t1 + t2 == t2;
    } else {
      var t := t1 + t2;
      assert t[3..] == t1[3..] + t2;
      assert t[..3] == t1[..3];
      assert FirstKept(t, n) == FirstKept(t1, n);
      KeptTrianglesAppend(t1[3..], t2, n);
      var first, k1, k2 := FirstKept(t1, n), KeptTriangles(t1[3..], n), KeptTriangles(t2, n);
      assert first + (k1 + k2) == (first + k1) + k2;
    }
  }

  /** A table whose corners are all below `n` is kept whole. */
  lemma {:induction false} KeptTrianglesAllInRange(table: seq<nat>, n: nat)
    requires |table| % 3 == 0 && AllBelow(table, n)
    ensures KeptTriangles(table, n) == table
    decreases |table|
  {
    if |table| != 0 {
      KeptTrianglesAllInRange(table[3..], n);
      assert table[..3] + table[3..] == table;
    }
  }

  /** Conversely, the filter keeps everything only when every corner is below `n`. */
  lemma KeptTrianglesWholeOnlyInRange(table: seq<nat>, n: nat)
    requires |table| % 3 == 0 && KeptTriangles(table, n) == table
    ensures AllBelow(table, n)
  {
  }

  /** A triangle with a corner at or above `n` is dropped. */
  lemma KeptTrianglesDropsOutOfRange(table: seq<nat>, n: nat, a: nat, b: nat, c: nat)
    requires |table| % 3 == 0 && (a >= n || b >= n || c >= n)
    ensures KeptTriangles(table + [a, b, c], n) == KeptTriangles(table, n)
  {
    KeptTrianglesAppend(table, [a, b, c], n);
    assert [a, b, c][3..] == [];
  }

  /** A triangle whose corners are all below `n` is appended. */
  lemma KeptTrianglesKeepsInRange(table: seq<nat>, n: nat, a: nat, b: nat, c: nat)
    requires |table| % 3 == 0 && a < n && b < n && c < n
    ensures KeptTriangles(table + [a, b, c], n) == KeptTriangles(table, n) + [a, b, c]
  {
    KeptTrianglesAppend(table, [a, b, c], n);
    assert [a, b, c][3..] == [];
    assert [a, b, c][..3] == [a, b, c];
  }

  /** With the full 468-point layout (indeed with 467 points or more) the whole table is used. */
  lemma FullLayoutKeepsWholeTable(n: nat)
    requires n >= 467
    ensures KeptTriangles(FaceMeshTriangles, n) == FaceMeshTriangles
  {
    TableShape();
    KeptTrianglesAllInRange(FaceMeshTriangles, n);
  }

  /** Without landmarks nothing is kept. */
  lemma NoLandmarksNoTriangles(table: seq<nat>)
    requires |table| % 3 == 0
    ensures KeptTriangles(table, 0) == []
  {
    assert AllBelow(KeptTriangles(table, 0), 0);
  }

  // ---------------------------------------------------------------------------
  // Normals
  // ---------------------------------------------------------------------------

  /** The (unnormalised) normal of triangle (a, b, c): the cross product of its edges from `a`. */
  function FaceNormal(a: Vec3, b: Vec3, c: Vec3): Vec3 {
    Cross(Sub(b, a), Sub(c, a))
  }

  /** Every triangle corner is a vertex of `pos`. */
  predicate IndicesIn(tris: seq<nat>, pos: seq<Vec3>) {
    |tris| % 3 == 0 && AllBelow(tris, |pos|)
  }

  /**
   * The per-vertex accumulators after the triangles of `tris`, taken in order,
   * have each added their face normal to each of their three corners, starting
   * from zero.
   */
  function Accumulated(pos: seq<Vec3>, tris: seq<nat>): (acc: seq<Vec3>)
    requires IndicesIn(tris, pos)
    ensures |acc| == |pos|
    decreases |tris|
  {
    if |tris| == 0 then seq(|pos|, _ => Zero)
    else
      var m := |tris| - 3;
      var a, b, c := tris[m], tris[m + 1], tris[m + 2];
      AddToCorners(Accumulated(pos, tris[..m]), a, b, c, FaceNormal(pos[a], pos[b], pos[c]))
  }

  /** `n` added to the accumulators of `a`, then `b`, then `c`. */
  function AddToCorners(acc: seq<Vec3>, a: nat, b: nat, c: nat, n: Vec3): (acc': seq<Vec3>)
    requires a < |acc| && b < |acc| && c < |acc|
    ensures |acc'| == |acc|
  {
    var acc1 := acc[a := Add(acc[a], n)];
    var acc2 := acc1[b := Add(acc1[b], n)];
    acc2[c := Add(acc2[c], n)]
  }

  /** One more triangle adds its face normal to its three corners. */
  lemma AccumulatedStep(pos: seq<Vec3>, tris: seq<nat>, a: nat, b: nat, c: nat)
    requires IndicesIn(tris, pos) && a < |pos| && b < |pos| && c < |pos|
    ensures IndicesIn(tris + [a, b, c], pos)
    ensures Accumulated(pos, tris + [a, b, c])
         == AddToCorners(Accumulated(pos, tris), a, b, c, FaceNormal(pos[a], pos[b], pos[c]))
  {
    var t := tris + [a, b, c];
    assert t[..|t| - 3] == tris;
    assert t[|t| - 3] == a && t[|t| - 2] == b && t[|t| - 1] == c;
  }

  /** The stored normal for accumulator `v` whose computed length is `len`: `v / len`, or `v` with z set to 1 when `len` is not positive. */
  function FinalNormal(v: Vec3, len: real): Vec3 {
    if len > 0.0 then DivideBy(v, len) else v.(z := 1.0)
  }

  /** The normals `computeNormals` leaves behind, with `sqrt` the square root it calls. */
  function VertexNormals(pos: seq<Vec3>, tris: seq<nat>, sqrt: real -> real): (ns: seq<Vec3>)
    requires IndicesIn(tris, pos)
    ensures |ns| == |pos|
  {
    var acc := Accumulated(pos, tris);
    seq(|acc|, j requires 0 <= j < |acc| => FinalNormal(acc[j], sqrt(SquaredLength(acc[j]))))
  }

  /** A degenerate triangle (two equal corners) has a zero face normal. */
  lemma DegenerateFaceNormal(a: Vec3, b: Vec3, c: Vec3)
    requires a == b || b == c || a == c
    ensures FaceNormal(a, b, c) == Zero
  {
    if a == b {
      assert Sub(b, a) == Zero;
      CrossDegenerate(Sub(c, a));
    } else if a == c {
      assert Sub(c, a) == Zero;
      CrossDegenerate(Sub(b, a));
    } else {
      CrossDegenerate(Sub(b, a));
    }
  }

  /** ... so it adds nothing to any accumulator. */
  lemma DegenerateTriangleAddsNothing(pos: seq<Vec3>, tris: seq<nat>, a: nat, b: nat, c: nat)
    requires IndicesIn(tris, pos) && a < |pos| && b < |pos| && c < |pos|
    requires a == b || b == c || a == c
    ensures IndicesIn(tris + [a, b, c], pos)
    ensures Accumulated(pos, tris + [a, b, c]) == Accumulated(pos, tris)
  {
    AccumulatedStep(pos, tris, a, b, c);
    DegenerateFaceNormal(pos[a], pos[b], pos[c]);
    var acc := Accumulated(pos, tris);
    AddZeroAt(acc, a);
    AddZeroAt(acc, b);
    AddZeroAt(acc, c);
  }

  lemma AddZeroAt(acc: seq<Vec3>, v: nat)
    requires v < |acc|
    ensures acc[v := Add(acc[v], Zero)] == acc
  {
    assert Add(acc[v], Zero) == acc[v];
  }

  /** A vertex that no triangle uses keeps a zero accumulator. */
  lemma {:induction false} UnusedVertexStaysZero(pos: seq<Vec3>, tris: seq<nat>, v: nat)
    requires IndicesIn(tris, pos) && v < |pos| && v !in tris
    ensures Accumulated(pos, tris)[v] == Zero
    decreases |tris|
  {
    if |tris| != 0 {
      var m := |tris| - 3;
      assert tris[m] in tris && tris[m + 1] in tris && tris[m + 2] in tris;
      assert forall k :: 0 <= k < m ==> tris[..m][k] == tris[k];
      UnusedVertexStaysZero(pos, tris[..m], v);
    }
  }

  /** So an unused vertex ends facing the camera, (0, 0, 1), with the square root of 0 being 0. */
  lemma UnusedVertexFacesCamera(pos: seq<Vec3>, tris: seq<nat>, sqrt: real -> real, v: nat)
    requires IndicesIn(tris, pos) && v < |pos| && v !in tris
    requires sqrt(0.0) == 0.0
    ensures VertexNormals(pos, tris, sqrt)[v] == Vec3(0.0, 0.0, 1.0)
  {
    UnusedVertexStaysZero(pos, tris, v);
    VertexNormalAt(pos, tris, sqrt, v);
    ZeroHasLengthZero();
  }

  lemma ZeroHasLengthZero()
    ensures SquaredLength(Zero) == 0.0
  {
  }

  lemma VertexNormalAt(pos: seq<Vec3>, tris: seq<nat>, sqrt: real -> real, v: nat)
    requires IndicesIn(tris, pos) && v < |pos|
    ensures var acc := Accumulated(pos, tris)[v];
      VertexNormals(pos, tris, sqrt)[v] == FinalNormal(acc, sqrt(SquaredLength(acc)))
  {
  }

  /** Where the computed length is the accumulator's true length and positive, the stored normal has length 1. */
  lemma NormalIsUnit(pos: seq<Vec3>, tris: seq<nat>, sqrt: real -> real, v: nat)
    requires IndicesIn(tris, pos) && v < |pos|
    requires var acc := Accumulated(pos, tris)[v]; IsLengthOf(sqrt(SquaredLength(acc)), acc)
    ensures SquaredLength(VertexNormals(pos, tris, sqrt)[v]) == 1.0
  {
    var acc := Accumulated(pos, tris)[v];
    var len := sqrt(SquaredLength(acc));
    assert VertexNormals(pos, tris, sqrt)[v] == FinalNormal(acc, len) == DivideBy(acc, len);
    DividedByLengthIsUnit(acc, len);
  }

  /** Otherwise the stored normal keeps the accumulator's x and y and has z = 1. */
  lemma ZeroLengthNormal(pos: seq<Vec3>, tris: seq<nat>, sqrt: real -> real, v: nat)
    requires IndicesIn(tris, pos) && v < |pos|
    requires sqrt(SquaredLength(Accumulated(pos, tris)[v])) <= 0.0
    ensures VertexNormals(pos, tris, sqrt)[v] == Accumulated(pos, tris)[v].(z := 1.0)
  {
  }

  // ---------------------------------------------------------------------------
  // Buffer building
  // ---------------------------------------------------------------------------

  /**
   * Builds the face mesh for `landmarks`: vertex positions and texture
   * coordinates per landmark, the table's triangles whose corners all exist,
   * and the normals accumulated from them. `sqrt` is the square root used to
   * normalise; the image size is not used.
   */
  method BuildFaceMesh(landmarks: seq<LandmarkPoint>, sqrt: real -> real) returns (mesh: MeshData)
    ensures fresh(mesh.vertices) && fresh(mesh.uvs) && fresh(mesh.indices) && fresh(mesh.normals)
    ensures Stores3(mesh.vertices[..], Positions(landmarks))
    ensures Stores2(mesh.uvs[..], Uvs(landmarks))
    ensures mesh.indices[..] == KeptTriangles(FaceMeshTriangles, |landmarks|)
    ensures IndicesIn(mesh.indices[..], Positions(landmarks))
    ensures Stores3(mesh.normals[..], VertexNormals(Positions(landmarks), mesh.indices[..], sqrt))
  {
    var vertices, uvs, normals := FillVertexBuffers(landmarks);
    TableShape();
    var indices := FilterTriangles(FaceMeshTriangles, |landmarks|);
    StoresUnique(vertices[..], Positions(landmarks));
    ghost var positions := vertices[..];
    ghost var triangles := indices[..];
    ComputeNormals(vertices, indices, normals, sqrt);
    assert vertices[..] == positions && indices[..] == triangles;
    mesh := MeshData(vertices, uvs, indices, normals);
  }

  /** The per-landmark loop: positions, texture coordinates, and provisional normals (0, 0, 1). */
  method FillVertexBuffers(landmarks: seq<LandmarkPoint>) returns (vertices: array<real>, uvs: array<real>, normals: array<real>)
    ensures fresh(vertices) && fresh(uvs) && fresh(normals)
    ensures Stores3(vertices[..], Positions(landmarks))
    ensures Stores2(uvs[..], Uvs(landmarks))
    ensures normals.Length == 3 * |landmarks| && normals != vertices
    ensures forall j :: 0 <= j < |landmarks| ==> normals[3 * j] == 0.0 && normals[3 * j + 1] == 0.0 && normals[3 * j + 2] == 1.0
  {
    var n := |landmarks|;
    vertices := new real[n * 3];
    uvs := new real[n * 2];
    normals := new real[n * 3];
    var i := 0;
    while i < n
      invariant 0 <= i <= n
      invariant forall j :: 0 <= j < i ==>
        vertices[3 * j] == Position(landmarks[j]).x && vertices[3 * j + 1] == Position(landmarks[j]).y
        && vertices[3 * j + 2] == Position(landmarks[j]).z
      invariant forall j :: 0 <= j < i ==> uvs[2 * j] == Uv(landmarks[j]).0 && uvs[2 * j + 1] == Uv(landmarks[j]).1
      invariant forall j :: 0 <= j < i ==> normals[3 * j] == 0.0 && normals[3 * j + 1] == 0.0 && normals[3 * j + 2] == 1.0
    {
      var lm := landmarks[i];
      Write3(vertices, i, (lm.x - 0.5) * 2.0, -(lm.y - 0.5) * 2.0, -lm.z * 0.5);
      Write2(uvs, i, lm.x, 1.0 - lm.y);
      Write3(normals, i, 0.0, 0.0, 1.0);
      i := i + 1;
    }
  }

  /** Writes slots 3i, 3i + 1 and 3i + 2 of a; the earlier slots keep their values. */
  method Write3(a: array<real>, i: nat, x: real, y: real, z: real)
    requires 3 * i + 2 < a.Length
    modifies a
    ensures a[3 * i] == x && a[3 * i + 1] == y && a[3 * i + 2] == z
    ensures forall k :: 0 <= k < 3 * i ==> a[k] == old(a[k])
  {
    a[i * 3] := x;
    a[i * 3 + 1] := y;
    a[i * 3 + 2] := z;
  }

  /** Writes slots 2i and 2i + 1 of a; the earlier slots keep their values. */
  method Write2(a: array<real>, i: nat, u: real, v: real)
    requires 2 * i + 1 < a.Length
    modifies a
    ensures a[2 * i] == u && a[2 * i + 1] == v
    ensures forall k :: 0 <= k < 2 * i ==> a[k] == old(a[k])
  {
    a[i * 2] := u;
    a[i * 2 + 1] := v;
  }

  /** One more table triple extends the filtered prefix by that triple exactly when it is kept. */
  lemma KeptTrianglesStep(table: seq<nat>, n: nat, i: nat)
    requires |table| % 3 == 0 && i % 3 == 0 && i < |table|
    ensures i + 3 <= |table|
    ensures KeptTriangles(table[..i + 3], n) == KeptTriangles(table[..i], n)
      + if table[i] < n && table[i + 1] < n && table[i + 2] < n then [table[i], table[i + 1], table[i + 2]] else []
  {
    var a, b, c := table[i], table[i + 1], table[i + 2];
    assert table[..i + 3] == table[..i] + [a, b, c];
    if a < n && b < n && c < n {
      KeptTrianglesKeepsInRange(table[..i], n, a, b, c);
    } else {
      KeptTrianglesDropsOutOfRange(table[..i], n, a, b, c);
    }
  }

  /** The triangle loop: pushes each table triple whose corners are all below `n`. */
  method FilterTriangles(table: seq<nat>, n: nat) returns (indices: array<nat>)
    requires |table| % 3 == 0
    ensures fresh(indices)
    ensures indices[..] == KeptTriangles(table, n)
  {
    var valid: seq<nat> := [];
    var i := 0;
    while i < |table|
      invariant 0 <= i <= |table| && i % 3 == 0
      invariant valid == KeptTriangles(table[..i], n)
    {
      KeptTrianglesStep(table, n, i);
      var a, b, c := table[i], table[i + 1], table[i + 2];
      if a < n && b < n && c < n {
        valid := valid + [a, b, c];
      }
      i := i + 3;
    }
    assert table[..i] == table;
    indices := new nat[|valid|](k requires 0 <= k < |valid| => valid[k]);
  }

  /**
   * Zero-fills `normals`, adds each triangle's face normal to the sums of its
   * three corners, then divides each vertex's sum by its length, or sets its
   * z to 1 when that length is not positive.
   */
  method ComputeNormals(vertices: array<real>, indices: array<nat>, normals: array<real>, sqrt: real -> real)
    requires vertices.Length % 3 == 0 && normals.Length == vertices.Length && normals != vertices
    requires IndicesIn(indices[..], Unflatten3(vertices[..]))
    modifies normals
    ensures Stores3(normals[..], VertexNormals(Unflatten3(vertices[..]), indices[..], sqrt))
  {
    ResetNormals(normals);
    AccumulateFaceNormals(vertices, indices, normals);
    NormalizeNormals(normals, Accumulated(Unflatten3(vertices[..]), indices[..]), sqrt);
  }

  /** `normals.fill(0)`: the zero sum for every vertex. */
  method ResetNormals(normals: array<real>)
    requires normals.Length % 3 == 0
    modifies normals
    ensures Stores3(normals[..], seq(normals.Length / 3, _ => Zero))
  {
    var k := 0;
    while k < normals.Length
      invariant 0 <= k <= normals.Length
      invariant forall j :: 0 <= j < k ==> normals[j] == 0.0
    {
      normals[k] := 0.0;
      k := k + 1;
    }
  }

  /** The triangle pass: adds each face normal to its three corners' sums. */
  method AccumulateFaceNormals(vertices: array<real>, indices: array<nat>, normals: array<real>)
    requires vertices.Length % 3 == 0 && normals.Length == vertices.Length && normals != vertices
    requires IndicesIn(indices[..], Unflatten3(vertices[..]))
    requires Stores3(normals[..], seq(normals.Length / 3, _ => Zero))
    modifies normals
    ensures Stores3(normals[..], Accumulated(Unflatten3(vertices[..]), indices[..]))
  {
    ghost var pos := Unflatten3(vertices[..]);
    ghost var tris := indices[..];
    assert tris[..0] == [];
    var i := 0;
    while i < indices.Length
      invariant 0 <= i <= indices.Length && i % 3 == 0
      invariant Stores3(normals[..], Accumulated(pos, tris[..i]))
    {
      WholeTriangleLeft(i, indices.Length);
      var a, b, c := indices[i], indices[i + 1], indices[i + 2];
      assert a == tris[i] && b == tris[i + 1] && c == tris[i + 2];
      TriplePrefix(tris, i, pos);
      AddFaceNormal(vertices, normals, a, b, c, pos, Accumulated(pos, tris[..i]));
      AccumulatedStep(pos, tris[..i], a, b, c);
      i := i + 3;
    }
    assert tris[..i] == tris;
  }

  /** The per-vertex pass: divides each sum by its length, or sets its z to 1 when the length is not positive. */
  method NormalizeNormals(normals: array<real>, ghost acc: seq<Vec3>, sqrt: real -> real)
    requires Stores3(normals[..], acc)
    modifies normals
    ensures Stores3(normals[..], PartlyNormalized(acc, |acc|, sqrt))
  {
    var numVertices := normals.Length / 3;
    var j := 0;
    while j < numVertices
      invariant 0 <= j <= numVertices
      invariant Stores3(normals[..], PartlyNormalized(acc, j, sqrt))
    {
      var x, y, z := normals[j * 3], normals[j * 3 + 1], normals[j * 3 + 2];
      assert PartlyNormalized(acc, j, sqrt)[j] == acc[j];
      assert Vec3(x, y, z) == acc[j];
      assert SquaredLength(Vec3(x, y, z)) == x * x + y * y + z * z;
      var len := sqrt(x * x + y * y + z * z);
      assert len == sqrt(SquaredLength(acc[j]));
      if len > 0.0 {
        SetVertex(normals, j, x / len, y / len, z / len, PartlyNormalized(acc, j, sqrt));
      } else {
        SetVertex(normals, j, x, y, 1.0, PartlyNormalized(acc, j, sqrt));
      }
      PartlyNormalizedStep(acc, j, sqrt);
      j := j + 1;
    }
  }

  /** The accumulators with the first `j` already normalised. */
  ghost function PartlyNormalized(acc: seq<Vec3>, j: nat, sqrt: real -> real): seq<Vec3> {
    seq(|acc|, k requires 0 <= k < |acc| => if k < j then FinalNormal(acc[k], sqrt(SquaredLength(acc[k]))) else acc[k])
  }

  lemma PartlyNormalizedStep(acc: seq<Vec3>, j: nat, sqrt: real -> real)
    requires j < |acc|
    ensures PartlyNormalized(acc, j + 1, sqrt)
         == PartlyNormalized(acc, j, sqrt)[j := FinalNormal(acc[j], sqrt(SquaredLength(acc[j])))]
  {
  }

  /** A prefix of whole triangles extended by the next triangle. */
  lemma TriplePrefix(tris: seq<nat>, i: nat, pos: seq<Vec3>)
    requires IndicesIn(tris, pos) && i % 3 == 0 && i + 3 <= |tris|
    ensures IndicesIn(tris[..i], pos)
    ensures tris[..i + 3] == tris[..i] + [tris[i], tris[i + 1], tris[i + 2]]
    ensures tris[i] < |pos| && tris[i + 1] < |pos| && tris[i + 2] < |pos|
  {
    assert forall k :: 0 <= k < i ==> tris[..i][k] == tris[k];
  }

  /** In a list of triples, a position that starts a triple is followed by two more entries. */
  lemma WholeTriangleLeft(i: nat, length: nat)
    requires i % 3 == 0 && length % 3 == 0 && i < length
    ensures i + 3 <= length
  {
  }

  /** One triangle: its face normal, read from the position buffer, added to its three corners' sums. */
  method AddFaceNormal(vertices: array<real>, normals: array<real>, a: nat, b: nat, c: nat,
                       ghost pos: seq<Vec3>, ghost acc: seq<Vec3>)
    requires vertices.Length % 3 == 0 && pos == Unflatten3(vertices[..]) && normals != vertices
    requires a < |pos| && b < |pos| && c < |pos| && Stores3(normals[..], acc) && |acc| == |pos|
    modifies normals
    ensures Stores3(normals[..], AddToCorners(acc, a, b, c, FaceNormal(pos[a], pos[b], pos[c])))
  {
    var nx, ny, nz := FaceNormalOf(vertices, a, b, c);
    assert pos[a] == VertexAt(vertices[..], a) && pos[b] == VertexAt(vertices[..], b) && pos[c] == VertexAt(vertices[..], c);
    ghost var n := FaceNormal(pos[a], pos[b], pos[c]);
    assert n == Vec3(nx, ny, nz);
    ghost var acc1 := acc[a := Add(acc[a], n)];
    ghost var acc2 := acc1[b := Add(acc1[b], n)];
    AddToVertex(normals, a, nx, ny, nz, acc);
    AddToVertex(normals, b, nx, ny, nz, acc1);
    AddToVertex(normals, c, nx, ny, nz, acc2);
  }

  /** The face normal of triangle (a, b, c), read from the flat position buffer. */
  method FaceNormalOf(vertices: array<real>, a: nat, b: nat, c: nat) returns (nx: real, ny: real, nz: real)
    requires 3 * a + 2 < vertices.Length && 3 * b + 2 < vertices.Length && 3 * c + 2 < vertices.Length
    ensures Vec3(nx, ny, nz)
         == FaceNormal(VertexAt(vertices[..], a), VertexAt(vertices[..], b), VertexAt(vertices[..], c))
  {
    var aX, aY, aZ := vertices[a * 3], vertices[a * 3 + 1], vertices[a * 3 + 2];
    var bX, bY, bZ := vertices[b * 3], vertices[b * 3 + 1], vertices[b * 3 + 2];
    var cX, cY, cZ := vertices[c * 3], vertices[c * 3 + 1], vertices[c * 3 + 2];
    var e1x, e1y, e1z := bX - aX, bY - aY, bZ - aZ;
    var e2x, e2y, e2z := cX - aX, cY - aY, cZ - aZ;
    nx := e1y * e2z - e1z * e2y;
    ny := e1z * e2x - e1x * e2z;
    nz := e1x * e2y - e1y * e2x;
  }

  /** `+=` of (nx, ny, nz) onto the three slots of vertex `v`. */
  method AddToVertex(normals: array<real>, v: nat, nx: real, ny: real, nz: real, ghost vs: seq<Vec3>)
    requires Stores3(normals[..], vs) && v < |vs|
    modifies normals
    ensures Stores3(normals[..], vs[v := Add(vs[v], Vec3(nx, ny, nz))])
  {
    ghost var before := normals[..];
    normals[v * 3] := normals[v * 3] + nx;
    normals[v * 3 + 1] := normals[v * 3 + 1] + ny;
    normals[v * 3 + 2] := normals[v * 3 + 2] + nz;
    var w := Add(vs[v], Vec3(nx, ny, nz));
    assert normals[..] == before[3 * v := w.x][3 * v + 1 := w.y][3 * v + 2 := w.z];
    StoresUpdate(before, vs, v, w);
  }

  /** Overwrites the three slots of vertex `v`. */
  method SetVertex(normals: array<real>, v: nat, x: real, y: real, z: real, ghost vs: seq<Vec3>)
    requires Stores3(normals[..], vs) && v < |vs|
    modifies normals
    ensures Stores3(normals[..], vs[v := Vec3(x, y, z)])
  {
    ghost var before := normals[..];
    normals[v * 3] := x;
    normals[v * 3 + 1] := y;
    normals[v * 3 + 2] := z;
    assert normals[..] == before[3 * v := x][3 * v + 1 := y][3 * v + 2 := z];
    StoresUpdate(before, vs, v, Vec3(x, y, z));
  }

  // ---------------------------------------------------------------------------
  // The full-image quad
  // ---------------------------------------------------------------------------

  /** The quad's corners: bottom-left, bottom-right, top-right, top-left. */
  const QuadCorners: seq<Vec3> := [Vec3(-1.0, -1.0, 0.0), Vec3(1.0, -1.0, 0.0), Vec3(1.0, 1.0, 0.0), Vec3(-1.0, 1.0, 0.0)]
  const QuadUvs: seq<(real, real)> := [(0.0, 0.0), (1.0, 0.0), (1.0, 1.0), (0.0, 1.0)]
  const QuadIndices: seq<nat> := [0, 1, 2, 0, 2, 3]
  const FacingCamera: Vec3 := Vec3(0.0, 0.0, 1.0)

  /** Builds the two-triangle mesh covering the whole image, every normal facing the camera. */
  method BuildFullImageMesh() returns (mesh: MeshData)
    ensures fresh(mesh.vertices) && fresh(mesh.uvs) && fresh(mesh.indices) && fresh(mesh.normals)
    ensures Stores3(mesh.vertices[..], QuadCorners)
    ensures Stores2(mesh.uvs[..], QuadUvs)
    ensures mesh.indices[..] == QuadIndices
    ensures Stores3(mesh.normals[..], seq(4, _ => FacingCamera))
  {
    var vertices := new real[12] [-1.0, -1.0, 0.0, 1.0, -1.0, 0.0, 1.0, 1.0, 0.0, -1.0, 1.0, 0.0];
    var uvs := new real[8] [0.0, 0.0, 1.0, 0.0, 1.0, 1.0, 0.0, 1.0];
    var indices := new nat[6] [0, 1, 2, 0, 2, 3];
    var normals := new real[12] [0.0, 0.0, 1.0, 0.0, 0.0, 1.0, 0.0, 0.0, 1.0, 0.0, 0.0, 1.0];
    mesh := MeshData(vertices, uvs, indices, normals);
  }

  /** The quad's indices are all below its 4 vertices, and they form two triangles. */
  lemma QuadIndicesInRange()
    ensures IndicesIn(QuadIndices, QuadCorners)
  {
  }

  /** The quad's texture coordinates follow its positions exactly as a face vertex's do. */
  lemma QuadUvFollowsPosition()
    ensures forall j :: 0 <= j < 4 ==>
      QuadUvs[j].0 == (QuadCorners[j].x + 1.0) / 2.0 && QuadUvs[j].1 == (QuadCorners[j].y + 1.0) / 2.0
  {
  }
}
