/**
 * The box mesh shared by the hello-world samples (C++ and Python) and the
 * simple-sensor sample: the constant point, normal, UV, index and face-count
 * tables, and the array-filling loops that turn them into the attributes
 * authored on a UsdGeomMesh, optionally shifted by an offset.
 */
module BoxGeometry {
  import opened Common
  import opened UsdXform

  /** Half the edge length of the box. */
  const H: int := 50

  /** A texture coordinate pair. */
  datatype UV = UV(u: int, v: int)

  /** Four corners per face, six faces: -Z, +Z, -Y, +X, +Y, -X. */
  const BoxPoints: seq<Vec3i> := [
    Vec3i(H, -H, -H), Vec3i(-H, -H, -H), Vec3i(H, H, -H), Vec3i(-H, H, -H),
    Vec3i(H, H, H), Vec3i(-H, H, H), Vec3i(-H, -H, H), Vec3i(H, -H, H),
    Vec3i(H, -H, H), Vec3i(-H, -H, H), Vec3i(-H, -H, -H), Vec3i(H, -H, -H),
    Vec3i(H, H, H), Vec3i(H, -H, H), Vec3i(H, -H, -H), Vec3i(H, H, -H),
    Vec3i(-H, H, H), Vec3i(H, H, H), Vec3i(H, H, -H), Vec3i(-H, H, -H),
    Vec3i(-H, -H, H), Vec3i(-H, H, H), Vec3i(-H, H, -H), Vec3i(-H, -H, -H)]

  const BoxNormals: seq<Vec3i> := [
    Vec3i(0, 0, -1), Vec3i(0, 0, -1), Vec3i(0, 0, -1), Vec3i(0, 0, -1),
    Vec3i(0, 0, 1), Vec3i(0, 0, 1), Vec3i(0, 0, 1), Vec3i(0, 0, 1),
    Vec3i(0, -1, 0), Vec3i(0, -1, 0), Vec3i(0, -1, 0), Vec3i(0, -1, 0),
    Vec3i(1, 0, 0), Vec3i(1, 0, 0), Vec3i(1, 0, 0), Vec3i(1, 0, 0),
    Vec3i(0, 1, 0), Vec3i(0, 1, 0), Vec3i(0, 1, 0), Vec3i(0, 1, 0),
    Vec3i(-1, 0, 0), Vec3i(-1, 0, 0), Vec3i(-1, 0, 0), Vec3i(-1, 0, 0)]

  const BoxUVs: seq<UV> := [
    UV(0, 0), UV(0, 1), UV(1, 1), UV(1, 0),
    UV(0, 0), UV(0, 1), UV(1, 1), UV(1, 0),
    UV(0, 0), UV(0, 1), UV(1, 1), UV(1, 0),
    UV(0, 0), UV(0, 1), UV(1, 1), UV(1, 0),
    UV(0, 0), UV(0, 1), UV(1, 1), UV(1, 0),
    UV(0, 0), UV(0, 1), UV(1, 1), UV(1, 0)]

  /** Two triangles per face, three vertices per triangle. */
  const BoxVertexIndices: seq<int> := [
    0, 1, 2, 1, 3, 2,
    4, 5, 6, 4, 6, 7,
    8, 9, 10, 8, 10, 11,
    12, 13, 14, 12, 14, 15,
    16, 17, 18, 16, 18, 19,
    20, 21, 22, 20, 22, 23]

  /** Twelve triangles. */
  const BoxVertexCounts: seq<int> := seq(12, _ => 3)

  function Dot(a: Vec3i, b: Vec3i): int {
    a.x * b.x + a.y * b.y + a.z * b.z
  }

  function Shift(p: Vec3i, d: Vec3i): Vec3i {
    Vec3i(p.x + d.x, p.y + d.y, p.z + d.z)
  }

  function Sum(s: seq<int>): int
    decreases |s|
  {
    if s == [] then 0 else Sum(s[..|s| - 1]) + s[|s| - 1]
  }

  lemma {:induction false} SumConstant(n: nat, c: int)
    ensures Sum(seq(n, _ => c)) == n * c
    decreases n
  {
    if n > 0 {
      assert seq(n, _ => c)[..n - 1] == seq(n - 1, _ => c);
      SumConstant(n - 1, c);
    }
  }

  /** Every index names a vertex, and the face counts use up the indices. */
  predicate IndicesValid(indices: seq<int>, counts: seq<int>, vertices: nat) {
    (forall i :: 0 <= i < |indices| ==> 0 <= indices[i] < vertices) &&
    Sum(counts) == |indices|
  }

  /** The tables agree with one another: 24 vertices, each lying on the face
      plane its normal describes at distance H from the centre; 36 indices,
      each naming a vertex, and the 12 triangles of three use them all; and
      the corners of triangle i / 3 all belong to face i / 6. */
  lemma BoxTablesConsistent()
    ensures |BoxPoints| == 24 && |BoxNormals| == 24 && |BoxUVs| == 24
    ensures |BoxVertexIndices| == 36 && |BoxVertexCounts| == 12
    ensures forall i :: 0 <= i < 12 ==> BoxVertexCounts[i] == 3
    ensures IndicesValid(BoxVertexIndices, BoxVertexCounts, |BoxPoints|)
    ensures forall i :: 0 <= i < 24 ==> Dot(BoxPoints[i], BoxNormals[i]) == H
    ensures forall i :: 0 <= i < 36 ==> BoxVertexIndices[i] / 4 == i / 6
  {
    SumConstant(12, 3);
  }

  /** The attributes authored on a box mesh. */
  datatype MeshData = MeshData(
    points: seq<Vec3i>,
    normals: seq<Vec3i>,
    indices: seq<int>,
    counts: seq<int>,
    uvs: seq<UV>)

  /** The box moved by `offset`: every point shifted, every other table as is. */
  function ShiftedBox(offset: Vec3i): MeshData {
    MeshData(seq(24, i requires 0 <= i < 24 => Shift(BoxPoints[i], offset)),
             BoxNormals, BoxVertexIndices, BoxVertexCounts, BoxUVs)
  }

  /** A shifted box is still a well-formed mesh whose points sit on the moved
      face planes, and shifting by zero gives the base tables back. */
  lemma ShiftedBoxWellFormed(offset: Vec3i)
    ensures var m := ShiftedBox(offset);
      |m.points| == |m.normals| == |m.uvs| == 24 &&
      IndicesValid(m.indices, m.counts, |m.points|) &&
      (forall i :: 0 <= i < 24 ==> Dot(m.points[i], m.normals[i]) == H + Dot(offset, m.normals[i]))
    ensures ShiftedBox(Vec3i(0, 0, 0)).points == BoxPoints
  {
    BoxTablesConsistent();
    var m := ShiftedBox(offset);
    forall i | 0 <= i < 24
      ensures Dot(m.points[i], m.normals[i]) == H + Dot(offset, m.normals[i])
    {
      DotShift(BoxPoints[i], offset, BoxNormals[i]);
    }
  }

  lemma DotShift(p: Vec3i, d: Vec3i, n: Vec3i)
    ensures Dot(Shift(p, d), n) == Dot(p, n) + Dot(d, n)
  {
    calc {
      Dot(Shift(p, d), n);
      (p.x + d.x) * n.x + (p.y + d.y) * n.y + (p.z + d.z) * n.z;
      { assert (p.x + d.x) * n.x == p.x * n.x + d.x * n.x;
        assert (p.y + d.y) * n.y == p.y * n.y + d.y * n.y;
        assert (p.z + d.z) * n.z == p.z * n.z + d.z * n.z; }
      Dot(p, n) + Dot(d, n);
    }
  }

  /** One attribute-filling loop: resize an array to the table's length and
      copy the table into it entry by entry. */
  method CopyTable<T(0)>(table: seq<T>) returns (copy: seq<T>)
    ensures copy == table
  {
    var a := new T[|table|];
    for i := 0 to |table|
      invariant forall j :: 0 <= j < i ==> a[j] == table[j]
    {
      a[i] := table[i];
    }
    copy := a[..];
  }

  /** The points loop: every base point moved by `offset`. */
  method ShiftPoints(offset: Vec3i) returns (points: seq<Vec3i>)
    ensures points == ShiftedBox(offset).points
  {
    var a := new Vec3i[|BoxPoints|];
    for i := 0 to |BoxPoints|
      invariant forall j :: 0 <= j < i ==> a[j] == Shift(BoxPoints[j], offset)
    {
      a[i] := Shift(BoxPoints[i], offset);
    }
    points := a[..];
  }

  /** The loops of createBox and createZoneGeometry: points (moved by
      `offset`), indices, normals, twelve face counts of 3, and UVs. */
  method FillBoxMesh(offset: Vec3i) returns (m: MeshData)
    ensures m == ShiftedBox(offset)
  {
    var points := ShiftPoints(offset);
    var indices := CopyTable(BoxVertexIndices);
    var normals := CopyTable(BoxNormals);
    var counts := new int[12](_ => 3);
    assert counts[..] == BoxVertexCounts;
    var uvs := CopyTable(BoxUVs);
    m := MeshData(points, normals, indices, counts[..], uvs);
  }

  /** Name of the n-th box under `root`: root + "/box_" + decimal(n). */
  function BoxPrimPath(root: string, n: int): (p: string)
    ensures StartsWith(p, root + "/box_")
  {
    root + "/box_" + IntToDecimal(n)
  }

  /** Different box numbers give different prim names. */
  lemma BoxPrimPathInjective(root: string, a: int, b: int)
    ensures BoxPrimPath(root, a) == BoxPrimPath(root, b) <==> a == b
  {
    if BoxPrimPath(root, a) == BoxPrimPath(root, b) {
      var pre := root + "/box_";
      assert BoxPrimPath(root, a)[|pre|..] == IntToDecimal(a);
      assert BoxPrimPath(root, b)[|pre|..] == IntToDecimal(b);
      IntToDecimalInjective(a, b);
    }
  }
}
