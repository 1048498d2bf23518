/** TerrainGenerator: the height grid, its triangulation, and the ground and slope
    queries every other component builds on. Mathf.PerlinNoise and the square root
    behind Vector2.Distance are supplied as oracles; the mesh normals that
    mesh.RecalculateNormals produces are supplied as the angle each makes with the up
    vector (Vector3.Angle(normal, Vector3.up)). */
module Terrain {
  import opened Geometry
  import opened Wrappers
  import Arith

  /** The inspector settings of a TerrainGenerator. */
  datatype TerrainParams = TerrainParams(
    terrainSize: nat,
    radius: real,
    noiseScale: real,
    heightMultiplier: real,
    mountainHeight: real)

  /** Number of grid points (and of vertices) of a terrain of the given size. */
  function VertexCount(s: nat): nat {
    (s + 1) * (s + 1)
  }

  // ---------------------------------------------------------------- height rule

  /** The final height of one grid point, given the Perlin noise sample there and its
      planar distance from the centre. Outside the radius the height is forced to -5 and
      then floored to -2; inside it a quadratic rim term is added. When the radius is 0 the
      edge factor is 0/0, a NaN that propagates to Mathf.Max(NaN, -2), which yields -2. */
  function VertexHeight(p: TerrainParams, noise: real, distance: real): (h: real)
    ensures h >= -2.0
  {
    if distance > p.radius then Max(-5.0, -2.0)
    else if p.radius * 0.3 == 0.0 then -2.0
    else
      var edgeFactor := Clamp01((distance - p.radius * 0.7) / (p.radius * 0.3));
      Max(noise * p.heightMultiplier + Sq(edgeFactor) * p.mountainHeight, -2.0)
  }

  /** A point farther than the radius from the centre sits exactly on the floor. */
  lemma OutsideRadiusIsFloor(p: TerrainParams, noise: real, distance: real)
    requires distance > p.radius
    ensures VertexHeight(p, noise, distance) == -2.0
  {
  }

  /** In the inner disc (distance at most 0.7 of a positive radius) the rim term vanishes:
      the height is the scaled noise, floored at -2. */
  lemma InnerDiscIsNoise(p: TerrainParams, noise: real, distance: real)
    requires p.radius > 0.0 && distance <= 0.7 * p.radius
    ensures VertexHeight(p, noise, distance) == Max(noise * p.heightMultiplier, -2.0)
  {
    var num := distance - p.radius * 0.7;
    var den := p.radius * 0.3;
    assert num / den <= 0.0 by {
      assert num <= 0.0 && den > 0.0;
      assert (num / den) * den == num;
    }
  }

  /** On the rim (0.7 to 1.0 of the radius) the rim term is at most the mountain height. */
  lemma RimBounded(p: TerrainParams, noise: real, distance: real)
    requires p.radius > 0.0 && distance <= p.radius && p.mountainHeight >= 0.0
    ensures VertexHeight(p, noise, distance) <= Max(noise * p.heightMultiplier + p.mountainHeight, -2.0)
  {
    var e := Clamp01((distance - p.radius * 0.7) / (p.radius * 0.3));
    assert Sq(e) <= 1.0 by {
      assert (1.0 - e) * e >= 0.0;
    }
    var q := Sq(e);
    var room := 1.0 - q;
    assert room * p.mountainHeight >= 0.0;
    assert q * p.mountainHeight <= p.mountainHeight;
  }

  /** `sd` is a square root of `v` (what Mathf.Sqrt computes). */
  predicate IsRoot(sd: real, v: real) {
    sd >= 0.0 && sd * sd == v
  }

  /** When the distance is a true square root, "farther than the radius" is a comparison
      of the squared distance with the squared radius (every point is outside a negative radius). */
  lemma OutsideRadiusIff(sd: real, v: real, radius: real)
    requires IsRoot(sd, v)
    ensures sd > radius <==> (radius < 0.0 || v > radius * radius)
  {
    if radius >= 0.0 {
      SqrtMonotone(radius * radius, v, radius, sd);
    }
  }

  // ---------------------------------------------------------------- the vertex grid

  /** Vector2.Distance of grid point (x, z) from the centre (size/2, size/2). */
  function PlanarDistance(p: TerrainParams, sqrt: real -> real, x: nat, z: nat): real {
    var c := p.terrainSize as real / 2.0;
    sqrt(Sq(c - x as real) + Sq(c - z as real))
  }

  /** The vertex GenerateTerrainData writes for grid point (x, z). */
  function GridVertex(p: TerrainParams, perlin: (real, real) -> real, sqrt: real -> real, x: nat, z: nat): Vec3 {
    var noise := perlin(x as real * p.noiseScale, z as real * p.noiseScale);
    Vec3(x as real, VertexHeight(p, noise, PlanarDistance(p, sqrt, x, z)), z as real)
  }

  /** Row z of the vertex array: grid points (0, z) .. (S, z). */
  function VertexRow(p: TerrainParams, perlin: (real, real) -> real, sqrt: real -> real, z: nat): seq<Vec3> {
    seq(p.terrainSize + 1, x requires 0 <= x < p.terrainSize + 1 => GridVertex(p, perlin, sqrt, x, z))
  }

  /** Rows 0 .. m-1 of the vertex array, one after another. */
  function VertexRows(p: TerrainParams, perlin: (real, real) -> real, sqrt: real -> real, m: nat): seq<Vec3>
    decreases m
  {
    if m == 0 then [] else VertexRows(p, perlin, sqrt, m - 1) + VertexRow(p, perlin, sqrt, m - 1)
  }

  /** z rows of S+1 vertices, counted up row by row. */
  function VertexBase(n: nat, z: nat): nat {
    if z == 0 then 0 else VertexBase(n, z - 1) + n
  }

  lemma {:induction false} VertexBaseIs(n: nat, z: nat)
    ensures VertexBase(n, z) == z * n
  {
    if z > 0 {
      VertexBaseIs(n, z - 1);
      assert z * n == (z - 1) * n + n;
    }
  }

  lemma {:induction false} VertexRowsLength(p: TerrainParams, perlin: (real, real) -> real, sqrt: real -> real, m: nat)
    ensures |VertexRows(p, perlin, sqrt, m)| == VertexBase(p.terrainSize + 1, m)
  {
    if m > 0 {
      VertexRowsLength(p, perlin, sqrt, m - 1);
    }
  }

  /** The whole vertex array GenerateTerrainData builds, row-major. */
  function GridVertices(p: TerrainParams, perlin: (real, real) -> real, sqrt: real -> real): (vs: seq<Vec3>)
    ensures |vs| == VertexCount(p.terrainSize)
  {
    VertexRowsLength(p, perlin, sqrt, p.terrainSize + 1);
    VertexBaseIs(p.terrainSize + 1, p.terrainSize + 1);
    VertexRows(p, perlin, sqrt, p.terrainSize + 1)
  }

  /** Entry t = VertexBase(z) + x of the first m > z rows is grid point (x, z). */
  lemma {:induction false} VertexRowsAt(p: TerrainParams, perlin: (real, real) -> real, sqrt: real -> real, m: nat, x: nat, z: nat, t: nat)
    requires z < m && x <= p.terrainSize && t == VertexBase(p.terrainSize + 1, z) + x
    ensures t < |VertexRows(p, perlin, sqrt, m)|
    ensures VertexRows(p, perlin, sqrt, m)[t] == GridVertex(p, perlin, sqrt, x, z)
    decreases m
  {
    var before, row := VertexRows(p, perlin, sqrt, m - 1), VertexRow(p, perlin, sqrt, m - 1);
    VertexRowsLength(p, perlin, sqrt, m - 1);
    if z < m - 1 {
      VertexRowsAt(p, perlin, sqrt, m - 1, x, z, t);
      assert (before + row)[t] == before[t];
    } else {
      assert (before + row)[|before| + x] == row[x];
    }
  }

  /** Grid point (x, z) is stored at index z*(S+1) + x, x running fastest, and its vertex
      carries x and z as coordinates, a height of at least -2, and exactly -2 when it lies
      outside the radius. */
  lemma GridVertexAt(p: TerrainParams, perlin: (real, real) -> real, sqrt: real -> real, x: nat, z: nat)
    requires x <= p.terrainSize && z <= p.terrainSize
    ensures z * (p.terrainSize + 1) + x < VertexCount(p.terrainSize)
    ensures GridVertices(p, perlin, sqrt)[z * (p.terrainSize + 1) + x] == GridVertex(p, perlin, sqrt, x, z)
    ensures GridVertex(p, perlin, sqrt, x, z).x == x as real && GridVertex(p, perlin, sqrt, x, z).z == z as real
    ensures GridVertex(p, perlin, sqrt, x, z).y >= -2.0
    ensures PlanarDistance(p, sqrt, x, z) > p.radius ==> GridVertex(p, perlin, sqrt, x, z).y == -2.0
  {
    var n := p.terrainSize + 1;
    VertexBaseIs(n, z);
    VertexRowsAt(p, perlin, sqrt, n, x, z, z * n + x);
    Arith.CellBelowSquare(x, z, n);
  }

  // ---------------------------------------------------------------- triangulation

  /** Offset of corner j (0..5) of a cell's two triangles from the cell's first vertex:
      (v, v+S+1, v+1) and (v+1, v+S+1, v+S+2), sharing the diagonal v+1 .. v+S+1. */
  function CornerOffset(s: nat, j: nat): nat
    requires j < 6
  {
    if j == 0 then 0
    else if j == 1 then s + 1
    else if j == 2 then 1
    else if j == 3 then 1
    else if j == 4 then s + 1
    else s + 2
  }

  /** Entry k of the triangle index array: cell k div 6, in row-major order over the
      S x S cells, corner k mod 6. */
  function TriangleEntry(s: nat, k: nat): int
    requires k < s * s * 6
  {
    var cell := k / 6;
    var x := cell % s;
    var z := cell / s;
    z * (s + 1) + x + CornerOffset(s, k % 6)
  }

  /** The two triangles of the cell whose first vertex is v, as GenerateTerrainData writes them. */
  function CellTriangles(s: nat, v: int): seq<int> {
    [v, v + s + 1, v + 1, v + 1, v + s + 1, v + s + 2]
  }

  /** n consecutive cells of a row, the first of which starts at vertex v: entry i is corner
      i mod 6 of the cell i div 6 places along. */
  function RowFrom(s: nat, v: int, n: nat): seq<int> {
    seq(6 * n, i requires 0 <= i < 6 * n => v + i / 6 + CornerOffset(s, i % 6))
  }

  /** A row is its first cell followed by the rest of the row. */
  lemma RowFromFirst(s: nat, v: int, n: nat)
    requires n > 0
    ensures RowFrom(s, v, n) == CellTriangles(s, v) + RowFrom(s, v + 1, n - 1)
  {
    var cell, rest := CellTriangles(s, v), RowFrom(s, v + 1, n - 1);
    forall i | 0 <= i < 6 * n
      ensures RowFrom(s, v, n)[i] == (cell + rest)[i]
    {
      if i >= 6 {
        assert i / 6 == (i - 6) / 6 + 1 && i % 6 == (i - 6) % 6;
      }
    }
  }

  /** Entry 6x + j of a row is corner j of the cell x vertices along. */
  lemma RowAt(s: nat, v: int, n: nat, x: nat, j: nat)
    requires x < n && j < 6
    ensures RowFrom(s, v, n)[6 * x + j] == v + x + CornerOffset(s, j)
  {
    assert (6 * x + j) / 6 == x && (6 * x + j) % 6 == j;
  }

  /** n consecutive rows of S cells, the first starting at vertex v; the next row starts S+1
      vertices later, because the `vert++` after each row skips the last column. */
  function RowsFrom(s: nat, v: int, n: nat): seq<int>
    decreases n
  {
    if n == 0 then [] else RowFrom(s, v, s) + RowsFrom(s, v + s + 1, n - 1)
  }

  lemma {:induction false} RowsFromLength(s: nat, v: int, n: nat)
    ensures |RowsFrom(s, v, n)| == 6 * s * n
    decreases n
  {
    if n > 0 {
      RowsFromLength(s, v + s + 1, n - 1);
      assert 6 * s * n == 6 * s + 6 * s * (n - 1);
    }
  }

  /** The triangle index array GenerateTerrainData builds. */
  function GridTriangles(s: nat): (ts: seq<int>)
    ensures |ts| == s * s * 6
  {
    RowsFromLength(s, 0, s);
    RowsFrom(s, 0, s)
  }

  /** Index of row z's first entry, 6*S*z, counted up row by row. */
  function RowBase(s: nat, z: nat): nat {
    if z == 0 then 0 else RowBase(s, z - 1) + 6 * s
  }

  /** Row z's first vertex, z*(S+1), counted up row by row. */
  function RowVertex(s: nat, z: nat): nat {
    if z == 0 then 0 else RowVertex(s, z - 1) + s + 1
  }

  lemma {:induction false} RowStartIs(s: nat, z: nat)
    ensures RowBase(s, z) == 6 * s * z && RowVertex(s, z) == z * (s + 1)
  {
    if z > 0 {
      RowStartIs(s, z - 1);
      assert 6 * s * z == 6 * s * (z - 1) + 6 * s;
      assert z * (s + 1) == (z - 1) * (s + 1) + s + 1;
    }
  }

  /** Entry t = RowBase(z) + i of the rows from vertex v is entry i of row z, the row starting at
      vertex w = v + RowVertex(z). */
  lemma {:induction false} RowsAt(s: nat, v: int, n: nat, z: nat, i: nat, t: nat, w: int)
    requires z < n && i < 6 * s && t == RowBase(s, z) + i && w == v + RowVertex(s, z)
    ensures t < |RowsFrom(s, v, n)| && RowsFrom(s, v, n)[t] == RowFrom(s, w, s)[i]
    decreases z
  {
    if z > 0 {
      RowsAt(s, v + s + 1, n - 1, z - 1, i, t - 6 * s, w);
    }
  }

  /** Entry j of cell (x, z) sits at k = 6*(z*S + x) + j and is corner j of the cell whose first
      vertex is z*(S+1) + x. */
  lemma CellEntry(s: nat, x: nat, z: nat, j: nat, k: nat)
    requires x < s && z < s && j < 6 && k == (z * s + x) * 6 + j
    ensures k < |GridTriangles(s)|
    ensures GridTriangles(s)[k] == z * (s + 1) + x + CornerOffset(s, j)
  {
    CellIndex(s, x, z, j, k);
    RowsAt(s, 0, s, z, 6 * x + j, k, z * (s + 1));
    RowAt(s, z * (s + 1), s, x, j);
  }

  lemma CellIndex(s: nat, x: nat, z: nat, j: nat, k: nat)
    requires k == (z * s + x) * 6 + j
    ensures k == RowBase(s, z) + 6 * x + j && z * (s + 1) == RowVertex(s, z)
  {
    RowStartIs(s, z);
    assert (z * s + x) * 6 == 6 * s * z + 6 * x;
  }

  /** The closed form at k = 6*(z*S + x) + j is corner j of cell (x, z). */
  lemma ClosedFormAt(s: nat, x: nat, z: nat, j: nat, k: nat)
    requires x < s && z < s && j < 6 && k == (z * s + x) * 6 + j
    ensures k < s * s * 6
    ensures TriangleEntry(s, k) == z * (s + 1) + x + CornerOffset(s, j)
  {
    var cell := z * s + x;
    Arith.CellBelowSquare(x, z, s);
    Arith.MulLeftMonotone(cell + 1, s * s, 6);
    Arith.DivModOf(cell, j, 6);
    Arith.DivModOf(z, x, s);
  }

  /** Splits an entry index k of the S x S grid into its cell (x, z) and corner j. */
  lemma EntryCell(s: nat, k: nat) returns (x: nat, z: nat, j: nat)
    requires k < s * s * 6
    ensures x < s && z < s && j < 6 && k == (z * s + x) * 6 + j
  {
    var cell := k / 6;
    j := k % 6;
    assert cell < s * s;
    x, z := cell % s, cell / s;
    assert z * s + x == cell;
    if z >= s {
      Arith.MulLeftMonotone(s, z, s);
    }
  }

  /** The array GenerateTerrainData builds is the closed form: entry k is corner k mod 6 of cell
      k div 6, the cells in row-major order. */
  lemma GridTrianglesClosedForm(s: nat)
    ensures forall k :: 0 <= k < |GridTriangles(s)| ==> GridTriangles(s)[k] == TriangleEntry(s, k)
  {
    forall k | 0 <= k < s * s * 6
      ensures GridTriangles(s)[k] == TriangleEntry(s, k)
    {
      var x, z, j := EntryCell(s, k);
      CellEntry(s, x, z, j, k);
      ClosedFormAt(s, x, z, j, k);
    }
  }

  /** Cell (x, z)'s largest corner, z*(S+1) + x + S + 1, is below (S+1)^2. */
  lemma CornerBelowCount(s: nat, x: nat, z: nat)
    requires x < s && z < s
    ensures z * (s + 1) + x + s + 2 <= VertexCount(s)
  {
    Arith.MulLeftMonotone(z, s - 1, s + 1);
    assert (s - 1) * (s + 1) == s * s - 1;
    assert VertexCount(s) == s * s + 2 * s + 1;
  }

  /** Every triangle entry names an existing vertex: 0 <= entry < (S+1)^2. */
  lemma TrianglesInRange(s: nat)
    ensures forall k :: 0 <= k < |GridTriangles(s)| ==> 0 <= GridTriangles(s)[k] < VertexCount(s)
  {
    forall k | 0 <= k < s * s * 6
      ensures 0 <= GridTriangles(s)[k] < VertexCount(s)
    {
      var x, z, j := EntryCell(s, k);
      CellEntry(s, x, z, j, k);
      CornerBelowCount(s, x, z);
    }
  }

  // ---------------------------------------------------------------- the published terrain

  /** The terrain as other components read it once generation has finished: its settings,
      its vertex array, and the mesh (None while the mesh is null), given as the angle in
      degrees of each mesh normal from the up vector. */
  datatype TerrainView = TerrainView(params: TerrainParams, vertices: seq<Vec3>, normalAngles: Option<seq<real>>)

  /** The vertex array has its generated length. */
  predicate Generated(t: TerrainView) {
    |t.vertices| == VertexCount(t.params.terrainSize)
  }

  /** TerrainGenerator.FindGroundPosition: clamp the planar position to the grid, round to the
      nearest grid point, and return that vertex; Vector3.zero when the index misses the array. */
  function FindGroundPosition(t: TerrainView, xz: Vec2): (p: Vec3) {
    var s := t.params.terrainSize;
    var x := Clamp(xz.x, 0.0, s as real);
    var z := Clamp(xz.y, 0.0, s as real);
    var index := RoundToInt(z) * (s + 1) + RoundToInt(x);
    if 0 <= index < |t.vertices| then t.vertices[index] else Zero
  }

  /** The grid point FindGroundPosition rounds a planar position to. */
  function GroundCell(s: nat, xz: Vec2): (r: (int, int)) {
    (RoundToInt(Clamp(xz.x, 0.0, s as real)), RoundToInt(Clamp(xz.y, 0.0, s as real)))
  }

  /** On a generated terrain the computed index is always in range: FindGroundPosition returns
      the vertex of the rounded, clamped grid point, and its Vector3.zero branch is never taken. */
  lemma GroundIsGridVertex(t: TerrainView, xz: Vec2)
    requires Generated(t)
    ensures 0 <= GroundCell(t.params.terrainSize, xz).0 <= t.params.terrainSize
    ensures 0 <= GroundCell(t.params.terrainSize, xz).1 <= t.params.terrainSize
    ensures 0 <= GroundCell(t.params.terrainSize, xz).1 * (t.params.terrainSize + 1) + GroundCell(t.params.terrainSize, xz).0 < |t.vertices|
    ensures FindGroundPosition(t, xz)
         == t.vertices[GroundCell(t.params.terrainSize, xz).1 * (t.params.terrainSize + 1) + GroundCell(t.params.terrainSize, xz).0]
  {
    var s := t.params.terrainSize;
    RoundToIntWithin(Clamp(xz.x, 0.0, s as real), 0, s);
    RoundToIntWithin(Clamp(xz.y, 0.0, s as real), 0, s);
    var (xi, zi) := GroundCell(s, xz);
    Arith.CellBelowSquare(xi, zi, s + 1);
  }

  /** On a terrain generated by GenerateTerrainData the ground position is the grid vertex
      (xi, h, zi) of the rounded, clamped point, with the generated height h. */
  lemma GroundOnGeneratedGrid(t: TerrainView, perlin: (real, real) -> real, sqrt: real -> real, xz: Vec2)
    requires t.vertices == GridVertices(t.params, perlin, sqrt)
    ensures var (xi, zi) := GroundCell(t.params.terrainSize, xz);
      0 <= xi <= t.params.terrainSize && 0 <= zi <= t.params.terrainSize &&
      FindGroundPosition(t, xz) == GridVertex(t.params, perlin, sqrt, xi, zi) &&
      FindGroundPosition(t, xz).x == xi as real && FindGroundPosition(t, xz).z == zi as real
  {
    GroundIsGridVertex(t, xz);
    var (xi, zi) := GroundCell(t.params.terrainSize, xz);
    GridVertexAt(t.params, perlin, sqrt, xi, zi);
  }

  /** The "no ground" sentinel is not distinguishable from real ground at the grid origin:
      a vertex (0, h, 0) with |h| < kEpsilon compares equal to Vector3.zero. */
  lemma OriginGroundReadsAsSentinel(t: TerrainView)
    requires Generated(t) && t.vertices[0] == Zero
    ensures FindGroundPosition(t, Vec2(0.0, 0.0)) == Zero && IsSentinel(FindGroundPosition(t, Vec2(0.0, 0.0)))
  {
  }

  // ---------------------------------------------------------------- slope queries

  /** TerrainGenerator.CalculateSlopeAtVertex: 0 without a mesh or for an index outside the
      normals; otherwise the angle of that normal from the up vector. */
  function SlopeAtVertex(t: TerrainView, i: int): (a: real) {
    if t.normalAngles.None? || i < 0 || i >= |t.normalAngles.value| then 0.0
    else t.normalAngles.value[i]
  }

  /** The slope queries fall back to 0 exactly when the mesh is missing or the index misses
      the normals, and otherwise read that normal's angle. */
  lemma SlopeAtVertexCases(t: TerrainView, i: int)
    ensures t.normalAngles.None? ==> SlopeAtVertex(t, i) == 0.0
    ensures t.normalAngles.Some? && !(0 <= i < |t.normalAngles.value|) ==> SlopeAtVertex(t, i) == 0.0
    ensures t.normalAngles.Some? && 0 <= i < |t.normalAngles.value| ==> SlopeAtVertex(t, i) == t.normalAngles.value[i]
  {
  }

  /** float.MaxValue: FindClosestVertex starts from minDistance = float.MaxValue. */
  const MaxFloat: real := 340282346638528859811704183484516925440.0

  /** The vertex FindClosestVertex holds after scanning the first n vertices, measuring with
      `distance` (Vector3.Distance): None while no vertex was closer than float.MaxValue; a vertex
      replaces the held one only when strictly closer. */
  function ScanClosest(vs: seq<Vec3>, distance: (Vec3, Vec3) -> real, p: Vec3, n: nat): (r: Option<nat>)
    requires n <= |vs|
    ensures r.Some? ==> r.value < n
  {
    if n == 0 then None
    else
      var prev := ScanClosest(vs, distance, p, n - 1);
      var best := if prev.None? then MaxFloat else distance(vs[prev.value], p);
      if distance(vs[n - 1], p) < best then Some(n - 1) else prev
  }

  /** The scan finds the first vertex of minimal distance among the first n, and finds none
      exactly when all of them are at least float.MaxValue away. */
  lemma {:induction false} ScanClosestIsFirstMinimum(vs: seq<Vec3>, distance: (Vec3, Vec3) -> real, p: Vec3, n: nat)
    requires n <= |vs|
    ensures var r := ScanClosest(vs, distance, p, n);
      (r.None? <==> forall j :: 0 <= j < n ==> distance(vs[j], p) >= MaxFloat)
      && (r.Some? ==> r.value < n && distance(vs[r.value], p) < MaxFloat)
      && (r.Some? ==> forall j :: 0 <= j < n ==> distance(vs[r.value], p) <= distance(vs[j], p))
      && (r.Some? ==> forall j :: 0 <= j < r.value ==> distance(vs[j], p) > distance(vs[r.value], p))
  {
    if n > 0 {
      ScanClosestIsFirstMinimum(vs, distance, p, n - 1);
    }
  }

  /** FindClosestVertex's result: the first vertex of minimal distance, 0 when there is none. */
  function ClosestVertex(vs: seq<Vec3>, distance: (Vec3, Vec3) -> real, p: Vec3): (i: nat) {
    match ScanClosest(vs, distance, p, |vs|)
    case None => 0
    case Some(i) => i
  }

  /** TerrainGenerator.CalculateSlopeAtPosition (local and world coordinates coincide). */
  function SlopeAtPosition(t: TerrainView, distance: (Vec3, Vec3) -> real, p: Vec3): (a: real) {
    if t.normalAngles.None? then 0.0 else SlopeAtVertex(t, ClosestVertex(t.vertices, distance, p))
  }

  /** TerrainGenerator.FindClosestVertex: a linear scan keeping the strictly closer vertex;
      `distance` is Vector3.Distance. */
  method FindClosestVertex(vertices: seq<Vec3>, distance: (Vec3, Vec3) -> real, p: Vec3) returns (closestIndex: nat)
    ensures closestIndex == ClosestVertex(vertices, distance, p)
    ensures |vertices| == 0 ==> closestIndex == 0
    ensures |vertices| > 0 ==> closestIndex < |vertices|
    ensures (exists j :: 0 <= j < |vertices| && distance(vertices[j], p) < MaxFloat) ==>
      (forall j :: 0 <= j < |vertices| ==> distance(vertices[closestIndex], p) <= distance(vertices[j], p)) &&
      (forall j :: 0 <= j < closestIndex ==> distance(vertices[j], p) > distance(vertices[closestIndex], p))
  {
    ScanClosestIsFirstMinimum(vertices, distance, p, |vertices|);
    closestIndex := 0;
    var minDistance := MaxFloat;
    for i := 0 to |vertices|
      invariant ScanClosest(vertices, distance, p, i).None? ==> closestIndex == 0 && minDistance == MaxFloat
      invariant ScanClosest(vertices, distance, p, i).Some? ==>
        closestIndex == ScanClosest(vertices, distance, p, i).value && minDistance == distance(vertices[closestIndex], p)
    {
      var d := distance(vertices[i], p);
      if d < minDistance {
        minDistance := d;
        closestIndex := i;
      }
    }
  }

  /** CalculateSlopeAtPosition as the source runs it, through the FindClosestVertex scan. */
  method CalculateSlopeAtPosition(t: TerrainView, distance: (Vec3, Vec3) -> real, worldPosition: Vec3) returns (slope: real)
    ensures slope == SlopeAtPosition(t, distance, worldPosition)
    ensures t.normalAngles.None? ==> slope == 0.0
    ensures t.normalAngles.Some? && |t.vertices| > 0 && |t.normalAngles.value| == |t.vertices| ==>
      exists i :: 0 <= i < |t.vertices| && slope == t.normalAngles.value[i]
  {
    if t.normalAngles.None? {
      return 0.0;
    }
    var closest := FindClosestVertex(t.vertices, distance, worldPosition);
    slope := SlopeAtVertex(t, closest);
  }

  // ---------------------------------------------------------------- the generator object

  /** GenerateTerrainData's inner vertex loop: row z, written from vs[i]. */
  method FillVertexRow(vs: array<Vec3>, i: nat, p: TerrainParams, perlin: (real, real) -> real, sqrt: real -> real, z: nat)
    returns (i': nat)
    requires i + p.terrainSize + 1 <= vs.Length
    modifies vs
    ensures i' == i + p.terrainSize + 1
    ensures vs[..i'] == old(vs[..i]) + VertexRow(p, perlin, sqrt, z)
  {
    ghost var start, row := vs[..i], VertexRow(p, perlin, sqrt, z);
    var x := 0;
    i' := i;
    while x <= p.terrainSize
      invariant 0 <= x <= p.terrainSize + 1 && i' == i + x
      invariant vs[..i'] == start + row[..x]
    {
      vs[i'] := GridVertex(p, perlin, sqrt, x, z);
      assert row[..x + 1] == row[..x] + [row[x]];
      assert vs[..i' + 1] == vs[..i'] + [vs[i']];
      x, i' := x + 1, i' + 1;
    }
    assert row[..x] == row;
  }

  method FillVertices(p: TerrainParams, perlin: (real, real) -> real, sqrt: real -> real) returns (vs: array<Vec3>)
    ensures fresh(vs) && vs[..] == GridVertices(p, perlin, sqrt)
  {
    var s := p.terrainSize;
    var n := s + 1;
    vs := new Vec3[n * n];
    var z: nat, i: nat := 0, 0;
    while z <= s
      invariant 0 <= z <= n && i <= vs.Length
      invariant vs[..i] == VertexRows(p, perlin, sqrt, z)
    {
      assert i + n <= vs.Length by {
        VertexRowsLength(p, perlin, sqrt, z);
        VertexBaseIs(n, z);
        Arith.MulLeftMonotone(z + 1, n, n);
        assert (z + 1) * n == z * n + n;
      }
      i := FillVertexRow(vs, i, p, perlin, sqrt, z);
      z := z + 1;
    }
    VertexRowsLength(p, perlin, sqrt, n);
    VertexBaseIs(n, n);
    assert vs[..] == vs[..i];
  }

  /** The triangle loop of GenerateTerrainData: `for (z = 0, vert = 0, tris = 0; z < S; z++, vert++)
      for (x = 0; x < S; x++, vert++, tris += 6)`. */
  /** Writes cell v's two triangles at ts[t..t+6], as the body of GenerateTerrainData's inner
      triangle loop does. */
  method WriteCell(ts: array<int>, t: nat, s: nat, v: int)
    requires t + 6 <= ts.Length
    modifies ts
    ensures ts[..t + 6] == old(ts[..t]) + CellTriangles(s, v)
  {
    ts[t + 0] := v;
    ts[t + 1] := v + s + 1;
    ts[t + 2] := v + 1;
    ts[t + 3] := v + 1;
    ts[t + 4] := v + s + 1;
    ts[t + 5] := v + s + 2;
  }

  /** Writing the next piece of a sequence to be assembled leaves the rest still to be written. */
  lemma ConcatStep(done: seq<int>, piece: seq<int>, rest: seq<int>, whole: seq<int>, after: seq<int>)
    requires done + (piece + rest) == whole && after == done + piece
    ensures after + rest == whole
  {
    assert done + (piece + rest) == done + piece + rest;
  }

  /** GenerateTerrainData's inner triangle loop: the S cells of the row starting at vertex v,
      written from ts[t]; the row's last vertex is v + S. */
  method FillRow(ts: array<int>, t: nat, s: nat, v: int) returns (t': nat, v': int)
    requires t + 6 * s <= ts.Length
    modifies ts
    ensures t' == t + 6 * s && v' == v + s
    ensures ts[..t'] == old(ts[..t]) + RowFrom(s, v, s)
  {
    ghost var start := ts[..t];
    var x := 0;
    t', v' := t, v;
    while x < s
      invariant 0 <= x <= s && t' == t + 6 * x && v' == v + x
      invariant ts[..t'] + RowFrom(s, v', s - x) == start + RowFrom(s, v, s)
    {
      ghost var done, row := ts[..t'], RowFrom(s, v' + 1, s - x - 1);
      RowFromFirst(s, v', s - x);
      WriteCell(ts, t', s, v');
      ConcatStep(done, CellTriangles(s, v'), row, start + RowFrom(s, v, s), ts[..t' + 6]);
      x, v', t' := x + 1, v' + 1, t' + 6;
    }
  }

  /** Rows z .. S-1 that are still to be written, starting at vertex v, are row z followed by the
      rest. */
  lemma RowsFromStep(s: nat, v: int, n: nat)
    requires n > 0
    ensures RowsFrom(s, v, n) == RowFrom(s, v, s) + RowsFrom(s, v + s + 1, n - 1)
    ensures |RowFrom(s, v, s)| == 6 * s
  {
  }

  method FillTriangles(s: nat) returns (ts: array<int>)
    ensures fresh(ts) && ts[..] == GridTriangles(s)
  {
    ghost var g := GridTriangles(s);
    ts := new int[s * s * 6];
    var z, vert, tris := 0, 0, 0;
    while z < s
      invariant 0 <= z <= s && 0 <= tris <= ts.Length
      invariant ts[..tris] + RowsFrom(s, vert, s - z) == g
    {
      ghost var done, rest := ts[..tris], RowsFrom(s, vert + s + 1, s - z - 1);
      RowsFromStep(s, vert, s - z);
      ghost var row := RowFrom(s, vert, s);
      assert done + (row + rest) == g;
      assert tris + 6 * s <= ts.Length by {
        assert |done| + |row| + |rest| == |g|;
      }
      tris, vert := FillRow(ts, tris, s, vert);
      ConcatStep(done, row, rest, g, ts[..tris]);
      z, vert := z + 1, vert + 1;
    }
    assert ts[..] == ts[..tris];
  }

  class TerrainGenerator {
    const params: TerrainParams
    var vertices: array?<Vec3>
    var triangles: array?<int>

    constructor (params: TerrainParams)
      ensures this.params == params && vertices == null && triangles == null
    {
      this.params := params;
      vertices := null;
      triangles := null;
    }

    /** TerrainGenerator.GenerateTerrainData: fill the (S+1)^2 vertex array row by row and the
        6*S^2 triangle index array cell by cell (the `vert++` after each row skips the last
        column). `perlin` is Mathf.PerlinNoise, `sqrt` the square root behind Vector2.Distance. */
    method GenerateTerrainData(perlin: (real, real) -> real, sqrt: real -> real)
      modifies this
      ensures vertices != null && triangles != null && fresh(vertices) && fresh(triangles)
      ensures vertices[..] == GridVertices(params, perlin, sqrt)
      ensures triangles[..] == GridTriangles(params.terrainSize)
    {
      vertices := FillVertices(params, perlin, sqrt);
      triangles := FillTriangles(params.terrainSize);
    }

    /** The terrain as published to the other components, once generated and given its mesh. */
    function View(normalAngles: Option<seq<real>>): (t: TerrainView)
      reads this, vertices
      requires vertices != null
      ensures t.params == params && t.vertices == vertices[..]
    {
      TerrainView(params, vertices[..], normalAngles)
    }
  }
}
