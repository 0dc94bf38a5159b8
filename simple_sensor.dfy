/**
 * The simple-sensor sample (omniSimpleSensor.cpp): main checks its
 * arguments, reads the number of zones, and createZoneGeometry lays the
 * zones out on a grid of side floor(cbrt(total)), 150 units apart; each zone
 * is the shared box mesh moved to its grid cell and named /World/box_<zone>.
 */
module SimpleSensor {
  import opened Common
  import opened UsdXform
  import opened BoxGeometry

  // ---------------------------------------------------------------------------
  // Integer arithmetic as C++ does it
  // ---------------------------------------------------------------------------

  /** C++ `%` for a positive divisor: truncating, so the sign follows `a`. */
  function CRem(a: int, b: int): int
    requires b > 0
  {
    if a >= 0 then a % b else -((-a) % b)
  }

  /** C++ `/` on ints for a positive divisor: truncating toward zero. */
  function CQuot(a: int, b: int): int
    requires b > 0
  {
    if a >= 0 then a / b else -((-a) / b)
  }

  /** On non-negative operands they are the Euclidean quotient and remainder. */
  lemma CRemCQuot(a: int, b: int)
    requires a >= 0 && b > 0
    ensures a == b * CQuot(a, b) + CRem(a, b) && 0 <= CRem(a, b) < b && CQuot(a, b) >= 0
  {
  }

  function Cube(r: int): int { r * r * r }

  lemma CubeAtLeast(k: nat)
    requires k >= 1
    ensures k <= Cube(k)
  {
    assert k * k >= k;
    assert (k * k) * k >= k * k;
  }

  /** The search behind FloorCbrt: the first root whose successor cubes past n. */
  function CbrtFrom(n: nat, r: nat): (k: nat)
    requires Cube(r) <= n
    ensures r <= k && Cube(k) <= n < Cube(k + 1)
    decreases n - r
  {
    if Cube(r + 1) <= n then
      CubeAtLeast(r + 1);
      CbrtFrom(n, r + 1)
    else r
  }

  /** floor(cbrt(n)) as an exact integer: the root whose cube is at most n
      and whose successor's cube exceeds it. */
  function FloorCbrt(n: nat): (r: nat)
    ensures Cube(r) <= n < Cube(r + 1)
  {
    CbrtFrom(n, 0)
  }

  /** The floor cube root is unique: any k with k³ <= n < (k+1)³ is it. */
  lemma FloorCbrtUnique(n: nat, k: nat)
    requires Cube(k) <= n < Cube(k + 1)
    ensures FloorCbrt(n) == k
  {
    var r := FloorCbrt(n);
    if r < k {
      CubeMonotone(r + 1, k);
    } else if r > k {
      CubeMonotone(k + 1, r);
    }
  }

  lemma CubeMonotone(a: nat, b: nat)
    requires a <= b
    ensures Cube(a) <= Cube(b)
  {
    assert a * a <= b * b by {
      assert a * a <= a * b;
      assert a * b <= b * b;
    }
    assert a * a * a <= b * b * a;
    assert b * b * a <= b * b * b;
  }

  // ---------------------------------------------------------------------------
  // createZoneGeometry
  // ---------------------------------------------------------------------------

  /** The grid side: floor(cbrt(totalZones)), raised to 1 when below it (the
      cube root of a non-positive count is not positive). */
  function ZoneSize(totalZones: int): (s: nat)
    ensures s >= 1
    ensures totalZones >= 1 ==> Cube(s) <= totalZones < Cube(s + 1)
    ensures totalZones < 8 ==> s == 1
  {
    var r := if totalZones >= 1 then FloorCbrt(totalZones) else 0;
    assert totalZones >= 8 ==> r >= 2 by {
      if totalZones >= 8 && r + 1 <= 2 {
        CubeMonotone(r + 1, 2);
      }
    }
    if r < 1 then 1 else r
  }

  function XOffset(zone: int, s: int): int
    requires s >= 1
  {
    CRem(zone, s) * 150
  }

  function YOffset(zone: int, s: int): int
    requires s >= 1
  {
    CQuot(CRem(zone, s * s), s) * 150
  }

  function ZOffset(zone: int, s: int): int
    requires s >= 1
  {
    CQuot(zone, s * s) * 150
  }

  /** The offset of a zone's box for a grid of `totalZones` zones. */
  function ZoneOffset(zone: int, totalZones: int): Vec3i {
    var s := ZoneSize(totalZones);
    Vec3i(XOffset(zone, s), YOffset(zone, s), ZOffset(zone, s))
  }

  /** The three grid coordinates of a zone are its mixed-radix digits (base s,
      base s, and an unbounded top digit); x and y stay within the grid. */
  lemma ZoneDigits(zone: int, s: int)
    requires zone >= 0 && s >= 1
    ensures var (x, y, z) := (XOffset(zone, s) / 150, YOffset(zone, s) / 150, ZOffset(zone, s) / 150);
            0 <= x < s && 0 <= y < s && 0 <= z &&
            zone == x + s * y + s * s * z
  {
    var ss := s * s;
    assert ss >= 1;
    var z := CQuot(zone, ss);
    var rest := CRem(zone, ss);
    CRemCQuot(zone, ss);
    var y := CQuot(rest, s);
    var x0 := CRem(rest, s);
    CRemCQuot(rest, s);
    assert zone == x0 + s * y + ss * z;
    assert zone == s * (y + s * z) + x0 by {
      assert ss * z == s * (s * z);
    }
    ModUnique(zone, s, y + s * z, x0);
    assert CRem(zone, s) == x0;
    assert XOffset(zone, s) / 150 == x0;
    assert YOffset(zone, s) / 150 == y;
    assert ZOffset(zone, s) / 150 == z;
  }

  lemma ModUnique(a: int, b: int, q: int, r: int)
    requires b > 0 && a == b * q + r && 0 <= r < b
    ensures a % b == r && a / b == q
  {
    var q' := a / b;
    var r' := a % b;
    var d := q - q';
    assert b * q - b * q' == r' - r;
    assert b * d == r' - r by {
      MulSub(b, q, q');
    }
    if d >= 1 {
      MulAtLeast(b, d);
    } else if d <= -1 {
      MulAtLeast(b, -d);
    }
  }

  lemma MulSub(b: int, x: int, y: int)
    ensures b * (x - y) == b * x - b * y
  {
  }

  lemma MulAtLeast(b: int, k: int)
    requires b > 0 && k >= 1
    ensures b * k >= b
  {
  }

  /** The offsets of a zone are multiples of 150; x and y lie in
      [0, (s - 1) * 150], z is at least 0. */
  lemma OffsetRanges(zone: int, s: int)
    requires zone >= 0 && s >= 1
    ensures 0 <= XOffset(zone, s) <= (s - 1) * 150 && XOffset(zone, s) % 150 == 0
    ensures 0 <= YOffset(zone, s) <= (s - 1) * 150 && YOffset(zone, s) % 150 == 0
    ensures 0 <= ZOffset(zone, s) && ZOffset(zone, s) % 150 == 0
  {
    var ss := s * s;
    assert ss >= 1;
    CRemCQuot(zone, s);
    CRemCQuot(zone, ss);
    var rest := CRem(zone, ss);
    CRemCQuot(rest, s);
    QuotBelow(rest, s);
    Times150Range(CRem(zone, s), s);
    Times150Range(CQuot(rest, s), s);
  }

  lemma Times150Range(x: int, s: int)
    requires 0 <= x < s
    ensures 0 <= x * 150 <= (s - 1) * 150 && (x * 150) % 150 == 0
  {
  }

  /** A remainder below s * s has a quotient by s below s. */
  lemma QuotBelow(rest: int, s: int)
    requires s >= 1 && 0 <= rest < s * s
    ensures CQuot(rest, s) < s
  {
    CRemCQuot(rest, s);
    MulCancelLess(s, CQuot(rest, s), s);
  }

  /** Higher zone numbers never sit lower: z is non-decreasing. */
  lemma ZOffsetMonotone(a: int, b: int, s: int)
    requires 0 <= a <= b && s >= 1
    ensures ZOffset(a, s) <= ZOffset(b, s)
  {
    var ss := s * s;
    assert ss >= 1;
    CRemCQuot(a, ss);
    CRemCQuot(b, ss);
    var qa, qb := CQuot(a, ss), CQuot(b, ss);
    assert ss * qa <= a;
    assert b < ss * (qb + 1) by {
      MulSub(ss, qb + 1, 0);
    }
    MulCancelLess(ss, qa, qb + 1);
  }

  lemma MulCancelLess(d: int, x: int, y: int)
    requires d > 0 && d * x < d * y
    ensures x < y
  {
    MulSub(d, y, x);
  }

  /** Different non-negative zones get different offsets, whatever the grid
      size; in particular the zones 0 .. s³ - 1 fill the s x s x s grid. */
  lemma OffsetsInjective(a: int, b: int, s: int)
    requires a >= 0 && b >= 0 && s >= 1
    ensures (XOffset(a, s), YOffset(a, s), ZOffset(a, s)) == (XOffset(b, s), YOffset(b, s), ZOffset(b, s)) <==> a == b
  {
    ZoneDigits(a, s);
    ZoneDigits(b, s);
  }

  /** The zones below s³ lie inside the s x s x s grid. */
  lemma ZOffsetBelowCube(zone: int, s: int)
    requires 0 <= zone < Cube(s) && s >= 1
    ensures ZOffset(zone, s) <= (s - 1) * 150
  {
    var ss := s * s;
    assert ss >= 1;
    CRemCQuot(zone, ss);
  }

  /** What createZoneGeometry leaves: the prim /World/box_<zone> and, when it
      was defined, its mesh. */
  datatype ZonePrim = ZonePrim(path: string, mesh: Option<MeshData>)

  /** The zone prim: the box moved to the zone's cell, or no attributes at
      all when the prim could not be defined. */
  function ZonePrimOf(zone: int, totalZones: int, defineOk: bool): ZonePrim {
    ZonePrim(BoxPrimPath("/World", zone), if defineOk then Some(ShiftedBox(ZoneOffset(zone, totalZones))) else None)
  }

  /** Distinct zones get distinct prim names, and each defined zone mesh is the
      box moved to a cell 150 units apart from every other zone's cell. */
  lemma ZonePrimsDistinct(a: int, b: int, totalZones: int)
    requires a >= 0 && b >= 0 && a != b
    ensures ZonePrimOf(a, totalZones, true).path != ZonePrimOf(b, totalZones, true).path
    ensures ZoneOffset(a, totalZones) != ZoneOffset(b, totalZones)
    ensures ZonePrimOf(a, totalZones, true).mesh.value.points[0] == Shift(BoxPoints[0], ZoneOffset(a, totalZones))
  {
    BoxPrimPathInjective("/World", a, b);
    OffsetsInjective(a, b, ZoneSize(totalZones));
  }

  /** createZoneGeometry: name the prim, return at once when it is not
      defined, then fill the shifted points and the other tables. */
  method CreateZoneGeometry(zoneNumber: int, totalZones: int, defineOk: bool) returns (r: ZonePrim)
    ensures r == ZonePrimOf(zoneNumber, totalZones, defineOk)
  {
    var boxName := "/World" + "/box_" + IntToDecimal(zoneNumber);
    if !defineOk {
      return ZonePrim(boxName, None);
    }
    var zoneSize := ZoneSize(totalZones);
    var xOffset := CRem(zoneNumber, zoneSize) * 150;
    var yZone := CRem(zoneNumber, zoneSize * zoneSize);
    var yOffset := CQuot(yZone, zoneSize) * 150;
    var zOffset := CQuot(zoneNumber, zoneSize * zoneSize) * 150;
    var m := FillBoxMesh(Vec3i(xOffset, yOffset, zOffset));
    return ZonePrim(boxName, Some(m));
  }

  // ---------------------------------------------------------------------------
  // main
  // ---------------------------------------------------------------------------

  /** How main ends and the zone prims it authored, in creation order. */
  datatype SensorResult = SensorResult(code: int, zones: seq<ZonePrim>)

  /** main: exit(1) unless there are exactly three arguments; exit(1) when the
      stage is not created; otherwise zones 0 .. n - 1 for n = atoi(argv[2]),
      then exit(0). `stageOk` is whether the stage was created, `defineOk(z)`
      whether zone z's prim was defined. */
  function SimpleSensorSpec(argv: seq<string>, stageOk: bool, defineOk: int -> bool): (r: SensorResult)
    ensures r.code == 0 <==> |argv| == 4 && stageOk
    ensures r.code == 0 ==> |r.zones| == (if Atoi(argv[2]) > 0 then Atoi(argv[2]) else 0)
    ensures r.code != 0 ==> r.code == 1 && r.zones == []
  {
    if |argv| != 4 then SensorResult(1, [])
    else if !stageOk then SensorResult(1, [])
    else
      var n := Atoi(argv[2]);
      SensorResult(0, seq(if n > 0 then n else 0, i => ZonePrimOf(i, n, defineOk(i))))
  }

  /** Zone i of a successful run is /World/box_<i>, laid out for the full count. */
  lemma SimpleSensorZones(argv: seq<string>, stageOk: bool, defineOk: int -> bool, i: int)
    requires |argv| == 4 && stageOk && 0 <= i < Atoi(argv[2])
    ensures var r := SimpleSensorSpec(argv, stageOk, defineOk);
            i < |r.zones| && r.zones[i].path == BoxPrimPath("/World", i) &&
            (defineOk(i) ==> r.zones[i].mesh == Some(ShiftedBox(ZoneOffset(i, Atoi(argv[2])))))
  {
    var r := SimpleSensorSpec(argv, stageOk, defineOk);
    assert r.zones[i] == ZonePrimOf(i, Atoi(argv[2]), defineOk(i));
  }

  /** The zone loop of main. */
  method SimpleSensorMain(argv: seq<string>, stageOk: bool, defineOk: int -> bool) returns (r: SensorResult)
    ensures r == SimpleSensorSpec(argv, stageOk, defineOk)
  {
    if |argv| != 4 {
      return SensorResult(1, []);
    }
    var numberOfThreads := Atoi(argv[2]);
    if !stageOk {
      return SensorResult(1, []);
    }
    var zones: seq<ZonePrim> := [];
    var x := 0;
    while x < numberOfThreads
      invariant 0 <= x <= (if numberOfThreads > 0 then numberOfThreads else 0)
      invariant zones == seq(x, i => ZonePrimOf(i, numberOfThreads, defineOk(i)))
    {
      var info := CreateZoneGeometry(x, numberOfThreads, defineOk(x));
      zones := zones + [info];
      x := x + 1;
    }
    return SensorResult(0, zones);
  }
}
