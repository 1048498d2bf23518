/** MaterialApplier: sorts the terrain's triangles, and its vertices, into water, mountain and
    ground by height, and puts the triangles of each kind in a submesh of its own with its own
    material, or colours each vertex by its kind. */
module Materials {
  import opened Geometry
  import opened Wrappers
  import Terrain
  import Arith

  // ---------------------------------------------------------------- the height classes

  /** The three kinds of terrain: submesh 0 (ground), 1 (mountain) and 2 (water). */
  datatype Zone = Ground | Mountain | Water

  /** The threshold tests, in the order the code makes them: at or below the water level is
      water, else at or above the mountain start is mountain, else ground. */
  function Classify(h: real, waterLevel: real, mountainStart: real): (z: Zone) {
    if h <= waterLevel then Water
    else if h >= mountainStart then Mountain
    else Ground
  }

  /** Each class in terms of the thresholds alone: water wins even where the two ranges overlap
      (mountainStart <= waterLevel), and ground is the open band between them. */
  lemma ClassifyIff(h: real, waterLevel: real, mountainStart: real)
    ensures Classify(h, waterLevel, mountainStart) == Water <==> h <= waterLevel
    ensures Classify(h, waterLevel, mountainStart) == Mountain <==> waterLevel < h && mountainStart <= h
    ensures Classify(h, waterLevel, mountainStart) == Ground <==> waterLevel < h < mountainStart
  {
  }

  /** The class of a triangle: that of the mean height of its three vertices. (A triangle naming
      a missing vertex makes the loop throw before it is classified; it is given Ground here
      only so that the function is total.) */
  function TriangleZone(vs: seq<Vec3>, a: int, b: int, c: int, waterLevel: real, mountainStart: real): (z: Zone) {
    if 0 <= a < |vs| && 0 <= b < |vs| && 0 <= c < |vs| then
      Classify((vs[a].y + vs[b].y + vs[c].y) / 3.0, waterLevel, mountainStart)
    else Ground
  }

  /** A triangle whose three vertices are all of one class is of that class: vertex colouring and
      the triangle partition agree where a triangle does not straddle a threshold. */
  lemma UniformTriangle(vs: seq<Vec3>, a: int, b: int, c: int, waterLevel: real, mountainStart: real, z: Zone)
    requires 0 <= a < |vs| && 0 <= b < |vs| && 0 <= c < |vs|
    requires Classify(vs[a].y, waterLevel, mountainStart) == z
    requires Classify(vs[b].y, waterLevel, mountainStart) == z
    requires Classify(vs[c].y, waterLevel, mountainStart) == z
    ensures TriangleZone(vs, a, b, c, waterLevel, mountainStart) == z
  {
    var mean := (vs[a].y + vs[b].y + vs[c].y) / 3.0;
    var lo := if vs[a].y <= vs[b].y && vs[a].y <= vs[c].y then vs[a].y else if vs[b].y <= vs[c].y then vs[b].y else vs[c].y;
    var hi := if vs[a].y >= vs[b].y && vs[a].y >= vs[c].y then vs[a].y else if vs[b].y >= vs[c].y then vs[b].y else vs[c].y;
    assert lo <= mean <= hi;
    ClassifyIff(vs[a].y, waterLevel, mountainStart);
    ClassifyIff(vs[b].y, waterLevel, mountainStart);
    ClassifyIff(vs[c].y, waterLevel, mountainStart);
    ClassifyIff(mean, waterLevel, mountainStart);
  }

  // ---------------------------------------------------------------- the triangle partition

  /** Every entry of the triangle array names a vertex. */
  predicate IndicesIn(vs: seq<Vec3>, tris: seq<int>) {
    forall j :: 0 <= j < |tris| ==> 0 <= tris[j] < |vs|
  }

  /** The loop over the triangle array throws (IndexOutOfRangeException) exactly when the array
      ends in a partial triangle or an entry names no vertex. */
  predicate Faults(vs: seq<Vec3>, tris: seq<int>) {
    |tris| % 3 != 0 || !IndicesIn(vs, tris)
  }

  /** The three index lists CreateMultiMaterialMesh fills. */
  datatype Lists = Lists(ground: seq<int>, mountain: seq<int>, water: seq<int>)

  /** Appending one triangle to the list of its class. */
  function AddTriangle(l: Lists, z: Zone, tri: seq<int>): (r: Lists) {
    match z
    case Water => l.(water := l.water + tri)
    case Mountain => l.(mountain := l.mountain + tri)
    case Ground => l.(ground := l.ground + tri)
  }

  /** The lists after the loop has gone over every triangle of tris, in order (tris is taken
      apart three entries at a time from its end, so this is meant for arrays of whole
      triangles; the loop throws on any other). */
  function Split(vs: seq<Vec3>, tris: seq<int>, waterLevel: real, mountainStart: real): (l: Lists)
    decreases |tris|
  {
    if |tris| < 3 then Lists([], [], [])
    else
      var n := |tris| - 3;
      AddTriangle(Split(vs, tris[..n], waterLevel, mountainStart),
        TriangleZone(vs, tris[n], tris[n + 1], tris[n + 2], waterLevel, mountainStart), tris[n..])
  }

  /** The reference definition, one class at a time: the triangles of tris in class z, each as
      its three entries, in input order. */
  function Select(vs: seq<Vec3>, tris: seq<int>, waterLevel: real, mountainStart: real, z: Zone): (sel: seq<int>)
    decreases |tris|
  {
    if |tris| < 3 then []
    else
      var n := |tris| - 3;
      Select(vs, tris[..n], waterLevel, mountainStart, z)
        + (if TriangleZone(vs, tris[n], tris[n + 1], tris[n + 2], waterLevel, mountainStart) == z then tris[n..] else [])
  }

  /** The loop's three lists are the three one-class selections. */
  lemma {:induction false} SplitIsSelect(vs: seq<Vec3>, tris: seq<int>, waterLevel: real, mountainStart: real)
    ensures Split(vs, tris, waterLevel, mountainStart)
         == Lists(Select(vs, tris, waterLevel, mountainStart, Ground),
                  Select(vs, tris, waterLevel, mountainStart, Mountain),
                  Select(vs, tris, waterLevel, mountainStart, Water))
    decreases |tris|
  {
    if |tris| >= 3 {
      var n := |tris| - 3;
      SplitIsSelect(vs, tris[..n], waterLevel, mountainStart);
    }
  }

  /** Every triangle goes to exactly one class: the three selections hold whole triangles and
      together as many entries as the input. */
  lemma {:induction false} SelectLengths(vs: seq<Vec3>, tris: seq<int>, waterLevel: real, mountainStart: real)
    requires |tris| % 3 == 0
    ensures |Select(vs, tris, waterLevel, mountainStart, Ground)| + |Select(vs, tris, waterLevel, mountainStart, Mountain)|
          + |Select(vs, tris, waterLevel, mountainStart, Water)| == |tris|
    ensures |Select(vs, tris, waterLevel, mountainStart, Ground)| % 3 == 0
    ensures |Select(vs, tris, waterLevel, mountainStart, Mountain)| % 3 == 0
    ensures |Select(vs, tris, waterLevel, mountainStart, Water)| % 3 == 0
    decreases |tris|
  {
    if |tris| > 0 {
      var n := |tris| - 3;
      SelectLengths(vs, tris[..n], waterLevel, mountainStart);
    }
  }

  /** A single triangle is selected, entries in their order, by its own class and by no other. */
  lemma SelectOne(vs: seq<Vec3>, a: int, b: int, c: int, waterLevel: real, mountainStart: real, z: Zone)
    ensures Select(vs, [a, b, c], waterLevel, mountainStart, z)
         == if TriangleZone(vs, a, b, c, waterLevel, mountainStart) == z then [a, b, c] else []
  {
    assert [a, b, c][..0] == [];
    assert [a, b, c][0..] == [a, b, c];
  }

  lemma ConcatAssoc<T>(a: seq<T>, b: seq<T>, c: seq<T>)
    ensures (a + b) + c == a + (b + c)
  {
  }

  /** Selection takes the last triangle of p + [x, y, w] apart from the rest. */
  lemma SelectLast(vs: seq<Vec3>, t: seq<int>, p: seq<int>, x: int, y: int, w: int, waterLevel: real, mountainStart: real, z: Zone)
    requires t == p + [x, y, w]
    ensures Select(vs, t, waterLevel, mountainStart, z)
         == Select(vs, p, waterLevel, mountainStart, z) + (if TriangleZone(vs, x, y, w, waterLevel, mountainStart) == z then [x, y, w] else [])
  {
    var n := |t| - 3;
    assert t[..n] == p;
    assert t[n..] == [x, y, w];
    assert t[n] == x && t[n + 1] == y && t[n + 2] == w;
  }

  /** Whole triangles less one are whole triangles. */
  lemma LessOneTriangle(n: int)
    requires n > 0 && n % 3 == 0
    ensures n - 3 >= 0 && (n - 3) % 3 == 0
  {
  }

  /** Selection keeps the order of the triangles: selecting from a run of triangles followed by
      a run of whole triangles gives the selections of the runs, one after the other. */
  lemma {:induction false} SelectAppend(vs: seq<Vec3>, a: seq<int>, b: seq<int>, waterLevel: real, mountainStart: real, z: Zone)
    requires |b| % 3 == 0
    ensures Select(vs, a + b, waterLevel, mountainStart, z)
         == Select(vs, a, waterLevel, mountainStart, z) + Select(vs, b, waterLevel, mountainStart, z)
    decreases |b|
  {
    if |b| == 0 {
      assert a + b == a;
    } else {
      var n := |b| - 3;
      var p := b[..n];
      var x, y, w := b[n], b[n + 1], b[n + 2];
      assert b == p + [x, y, w];
      LessOneTriangle(|b|);
      SelectLast(vs, b, p, x, y, w, waterLevel, mountainStart, z);
      SelectAppend(vs, a, p, waterLevel, mountainStart, z);
      ConcatAssoc(a, p, [x, y, w]);
      SelectLast(vs, a + b, a + p, x, y, w, waterLevel, mountainStart, z);
      var last := if TriangleZone(vs, x, y, w, waterLevel, mountainStart) == z then [x, y, w] else [];
      var sa := Select(vs, a, waterLevel, mountainStart, z);
      var sp := Select(vs, p, waterLevel, mountainStart, z);
      ConcatAssoc(sa, sp, last);
    }
  }

  /** The new mesh of CreateMultiMaterialMesh: the original vertices, normals and uv, and the
      three submeshes (ground, mountain, water). */
  datatype SubmeshedMesh = SubmeshedMesh(vertices: seq<Vec3>, normals: seq<Vec3>, uv: seq<Vec2>, submeshes: seq<seq<int>>)

  /** The terrain's mesh as the applier reads it. */
  datatype SourceMesh = SourceMesh(vertices: seq<Vec3>, triangles: seq<int>, normals: seq<Vec3>, uv: seq<Vec2>, colors: seq<Color>)

  /** The three lists of a triangle array, or None for the exception the loop throws. */
  function SplitTriangles(vs: seq<Vec3>, tris: seq<int>, waterLevel: real, mountainStart: real): (r: Option<Lists>)
    ensures r.None? <==> Faults(vs, tris)
  {
    if Faults(vs, tris) then None else Some(Split(vs, tris, waterLevel, mountainStart))
  }

  /** CreateMultiMaterialMesh as a value: None when the triangle loop throws (no mesh is built
      then), otherwise the original arrays with the three submeshes. */
  function MultiMaterialMesh(m: SourceMesh, waterLevel: real, mountainStart: real): (r: Option<SubmeshedMesh>)
  {
    match SplitTriangles(m.vertices, m.triangles, waterLevel, mountainStart)
    case None => None
    case Some(l) => Some(SubmeshedMesh(m.vertices, m.normals, m.uv, [l.ground, l.mountain, l.water]))
  }

  /** The new mesh keeps the vertices, normals and uv unchanged and has three submeshes: the
      ground, mountain and water triangles, each in input order, whole triangles only, that
      between them hold every triangle of the original exactly once. */
  lemma MultiMaterialMeshShape(m: SourceMesh, waterLevel: real, mountainStart: real)
    requires !Faults(m.vertices, m.triangles)
    ensures var r := MultiMaterialMesh(m, waterLevel, mountainStart);
      r.Some? && r.value.vertices == m.vertices && r.value.normals == m.normals && r.value.uv == m.uv
      && |r.value.submeshes| == 3
      && r.value.submeshes[0] == Select(m.vertices, m.triangles, waterLevel, mountainStart, Ground)
      && r.value.submeshes[1] == Select(m.vertices, m.triangles, waterLevel, mountainStart, Mountain)
      && r.value.submeshes[2] == Select(m.vertices, m.triangles, waterLevel, mountainStart, Water)
      && |r.value.submeshes[0]| + |r.value.submeshes[1]| + |r.value.submeshes[2]| == |m.triangles|
      && |r.value.submeshes[0]| % 3 == 0 && |r.value.submeshes[1]| % 3 == 0 && |r.value.submeshes[2]| % 3 == 0
  {
    SplitIsSelect(m.vertices, m.triangles, waterLevel, mountainStart);
    SelectLengths(m.vertices, m.triangles, waterLevel, mountainStart);
  }

  /** The mesh GenerateTerrainData builds never makes the loop throw: its 6 S^2 entries are whole
      triangles of existing vertices. */
  lemma GeneratedMeshSplits(s: nat, vs: seq<Vec3>)
    requires |vs| == Terrain.VertexCount(s)
    ensures !Faults(vs, Terrain.GridTriangles(s))
  {
    Terrain.TrianglesInRange(s);
    assert s * s * 6 == (s * s * 2) * 3 + 0;
    Arith.DivModOf(s * s * 2, 0, 3);
  }

  /** An array that ends in part of a triangle does not have a length that is a multiple of 3. */
  lemma PartialTriangle(n: int, k: nat)
    requires 3 * k < n < 3 * k + 3
    ensures n % 3 != 0
  {
    Arith.DivModOf(k, n - 3 * k, 3);
    assert k * 3 + (n - 3 * k) == n;
  }

  /** Three entries per triangle, k triangles: a whole array. */
  lemma WholeTriangles(n: int, k: nat)
    requires n == 3 * k
    ensures n % 3 == 0
  {
    Arith.DivModOf(k, 0, 3);
    assert k * 3 + 0 == n;
  }

  /** The entries below i + 3 name vertices once those below i and the three from i do. */
  lemma IndicesStep(vs: seq<Vec3>, tris: seq<int>, i: nat)
    requires i + 3 <= |tris| && forall j :: 0 <= j < i ==> 0 <= tris[j] < |vs|
    requires 0 <= tris[i] < |vs| && 0 <= tris[i + 1] < |vs| && 0 <= tris[i + 2] < |vs|
    ensures forall j :: 0 <= j < i + 3 ==> 0 <= tris[j] < |vs|
  {
  }

  /** An entry that names no vertex makes the loop throw. */
  lemma NamesNoVertex(vs: seq<Vec3>, tris: seq<int>, j: int)
    requires 0 <= j < |tris| && !(0 <= tris[j] < |vs|)
    ensures Faults(vs, tris)
  {
  }

  /** One more pass of the loop over three more entries. */
  lemma SplitStep(vs: seq<Vec3>, tris: seq<int>, i: nat, waterLevel: real, mountainStart: real)
    requires i + 3 <= |tris|
    ensures Split(vs, tris[..i + 3], waterLevel, mountainStart)
         == AddTriangle(Split(vs, tris[..i], waterLevel, mountainStart),
              TriangleZone(vs, tris[i], tris[i + 1], tris[i + 2], waterLevel, mountainStart), [tris[i], tris[i + 1], tris[i + 2]])
  {
    var p := tris[..i + 3];
    assert p[..i] == tris[..i];
    assert p[i..] == [tris[i], tris[i + 1], tris[i + 2]];
  }

  /** The body of the loop of CreateMultiMaterialMesh for one triangle: the mean height of its
      vertices, tested against the water level first and the mountain start second, decides
      which list the three entries are appended to. */
  method AppendTriangle(lists: Lists, vertices: seq<Vec3>, v1: int, v2: int, v3: int, waterLevel: real, mountainStart: real)
    returns (lists': Lists)
    requires 0 <= v1 < |vertices| && 0 <= v2 < |vertices| && 0 <= v3 < |vertices|
    ensures lists' == AddTriangle(lists, TriangleZone(vertices, v1, v2, v3, waterLevel, mountainStart), [v1, v2, v3])
  {
    var avgHeight := (vertices[v1].y + vertices[v2].y + vertices[v3].y) / 3.0;
    if avgHeight <= waterLevel {
      lists' := lists.(water := lists.water + [v1, v2, v3]);
    } else if avgHeight >= mountainStart {
      lists' := lists.(mountain := lists.mountain + [v1, v2, v3]);
    } else {
      lists' := lists.(ground := lists.ground + [v1, v2, v3]);
    }
  }

  /** The loop of CreateMultiMaterialMesh: over the triangle array three entries at a time, each
      triangle appended to the list of its class. None stands for the IndexOutOfRangeException
      of reading past either array. */
  method SeparateTriangles(vertices: seq<Vec3>, triangles: seq<int>, waterLevel: real, mountainStart: real)
    returns (r: Option<Lists>)
    ensures r == SplitTriangles(vertices, triangles, waterLevel, mountainStart)
  {
    var lists := Lists([], [], []);
    var i := 0;
    ghost var k: nat := 0;
    while i < |triangles|
      invariant i == 3 * k && i <= |triangles|
      invariant forall j :: 0 <= j < i ==> 0 <= triangles[j] < |vertices|
      invariant lists == Split(vertices, triangles[..i], waterLevel, mountainStart)
      decreases |triangles| - i
    {
      if i + 2 >= |triangles| {
        PartialTriangle(|triangles|, k);
        return None;
      }
      var v1, v2, v3 := triangles[i], triangles[i + 1], triangles[i + 2];
      if !(0 <= v1 < |vertices|) {
        NamesNoVertex(vertices, triangles, i);
        return None;
      }
      if !(0 <= v2 < |vertices|) {
        NamesNoVertex(vertices, triangles, i + 1);
        return None;
      }
      if !(0 <= v3 < |vertices|) {
        NamesNoVertex(vertices, triangles, i + 2);
        return None;
      }
      SplitStep(vertices, triangles, i, waterLevel, mountainStart);
      IndicesStep(vertices, triangles, i);
      lists := AppendTriangle(lists, vertices, v1, v2, v3, waterLevel, mountainStart);
      i, k := i + 3, k + 1;
    }
    assert triangles[..i] == triangles;
    WholeTriangles(|triangles|, k);
    return Some(lists);
  }

  // ---------------------------------------------------------------- vertex colours

  /** A Unity Color (r, g, b, a). */
  datatype Color = Color(r: real, g: real, b: real, a: real)

  /** Color.blue, Color.gray and Color.green. */
  const Blue: Color := Color(0.0, 0.0, 1.0, 1.0)
  const Gray: Color := Color(0.5, 0.5, 0.5, 1.0)
  const Green: Color := Color(0.0, 1.0, 0.0, 1.0)

  /** The colour ApplyVertexColors gives to each class. */
  function ZoneColor(z: Zone): (c: Color) {
    match z
    case Water => Blue
    case Mountain => Gray
    case Ground => Green
  }

  /** The three classes get three different colours, so a colour names its class. */
  lemma ZoneColorInjective(z: Zone, z': Zone)
    ensures ZoneColor(z) == ZoneColor(z') <==> z == z'
  {
  }

  /** The colour array ApplyVertexColors builds: one colour per vertex, from its height. */
  function VertexColors(vs: seq<Vec3>, waterLevel: real, mountainStart: real): (cs: seq<Color>)
    ensures |cs| == |vs|
    ensures forall i :: 0 <= i < |vs| ==> cs[i] == ZoneColor(Classify(vs[i].y, waterLevel, mountainStart))
  {
    seq(|vs|, i requires 0 <= i < |vs| => ZoneColor(Classify(vs[i].y, waterLevel, mountainStart)))
  }

  /** Where a triangle's vertices all have the same colour, the triangle partition puts it in the
      class of that colour. */
  lemma ColoursAgreeWithPartition(vs: seq<Vec3>, a: int, b: int, c: int, waterLevel: real, mountainStart: real)
    requires 0 <= a < |vs| && 0 <= b < |vs| && 0 <= c < |vs|
    requires VertexColors(vs, waterLevel, mountainStart)[a] == VertexColors(vs, waterLevel, mountainStart)[b]
          == VertexColors(vs, waterLevel, mountainStart)[c]
    ensures ZoneColor(TriangleZone(vs, a, b, c, waterLevel, mountainStart)) == VertexColors(vs, waterLevel, mountainStart)[a]
  {
    var z := Classify(vs[a].y, waterLevel, mountainStart);
    ZoneColorInjective(Classify(vs[b].y, waterLevel, mountainStart), z);
    ZoneColorInjective(Classify(vs[c].y, waterLevel, mountainStart), z);
    UniformTriangle(vs, a, b, c, waterLevel, mountainStart, z);
  }

  /** The loop of ApplyVertexColors, filling the colour array element by element. */
  method FillColors(vertices: seq<Vec3>, waterLevel: real, mountainStart: real) returns (colors: array<Color>)
    ensures fresh(colors)
    ensures colors[..] == VertexColors(vertices, waterLevel, mountainStart)
  {
    colors := new Color[|vertices|](_ => Green);
    for i := 0 to |vertices|
      invariant forall j :: 0 <= j < i ==> colors[j] == ZoneColor(Classify(vertices[j].y, waterLevel, mountainStart))
    {
      var height := vertices[i].y;
      if height <= waterLevel {
        colors[i] := Blue;
      } else if height >= mountainStart {
        colors[i] := Gray;
      } else {
        colors[i] := Green;
      }
    }
  }

  // ---------------------------------------------------------------- the component

  /** A material asset; None stands for an unassigned (null) material slot. */
  type Material = Option<nat>

  /** What the applier sees through its TerrainGenerator reference: the generator's vertex array
      and its mesh (None while the mesh is null). */
  datatype TerrainLink = TerrainLink(vertices: seq<Vec3>, mesh: Option<SourceMesh>)

  class MaterialApplier {
    const groundMaterial: Material
    const mountainMaterial: Material
    const waterMaterial: Material
    const waterLevel: real
    const mountainStartHeight: real
    /** The TerrainGenerator on the same object; None while it is missing. */
    var terrain: Option<TerrainLink>
    /** The mesh this component gave the MeshFilter; None while it has given none. */
    var filterMesh: Option<SubmeshedMesh>
    /** The MeshRenderer's materials array, one material per submesh. */
    var rendererMaterials: seq<Material>

    constructor (groundMaterial: Material, mountainMaterial: Material, waterMaterial: Material,
                 waterLevel: real, mountainStartHeight: real, terrain: Option<TerrainLink>, rendererMaterials: seq<Material>)
      ensures this.groundMaterial == groundMaterial && this.mountainMaterial == mountainMaterial
      ensures this.waterMaterial == waterMaterial
      ensures this.waterLevel == waterLevel && this.mountainStartHeight == mountainStartHeight
      ensures this.terrain == terrain && filterMesh.None? && this.rendererMaterials == rendererMaterials
    {
      this.groundMaterial := groundMaterial;
      this.mountainMaterial := mountainMaterial;
      this.waterMaterial := waterMaterial;
      this.waterLevel := waterLevel;
      this.mountainStartHeight := mountainStartHeight;
      this.terrain := terrain;
      filterMesh := None;
      this.rendererMaterials := rendererMaterials;
    }

    /** CreateMultiMaterialMesh: the new mesh goes to the MeshFilter and the renderer gets the
        materials in submesh order (ground, mountain, water); when the loop throws nothing
        changes. */
    method CreateMultiMaterialMesh(m: SourceMesh) returns (thrown: bool)
      modifies this
      ensures var r := MultiMaterialMesh(m, waterLevel, mountainStartHeight);
        thrown == r.None?
        && (r.Some? ==> filterMesh == r && rendererMaterials == [groundMaterial, mountainMaterial, waterMaterial])
        && (r.None? ==> filterMesh == old(filterMesh) && rendererMaterials == old(rendererMaterials))
      ensures terrain == old(terrain)
    {
      var lists := SeparateTriangles(m.vertices, m.triangles, waterLevel, mountainStartHeight);
      if lists.None? {
        return true;
      }
      var newMesh := SubmeshedMesh(m.vertices, m.normals, m.uv,
        [lists.value.ground, lists.value.mountain, lists.value.water]);
      filterMesh := Some(newMesh);
      rendererMaterials := [groundMaterial, mountainMaterial, waterMaterial];
      return false;
    }

    /** ApplyMaterials: nothing (but an error log) without a terrain or a mesh. */
    method ApplyMaterials() returns (thrown: bool)
      modifies this
      ensures terrain == old(terrain)
      ensures old(terrain).None? || old(terrain).value.mesh.None? ==>
        !thrown && filterMesh == old(filterMesh) && rendererMaterials == old(rendererMaterials)
      ensures old(terrain).Some? && old(terrain).value.mesh.Some? ==>
        var r := MultiMaterialMesh(old(terrain).value.mesh.value, waterLevel, mountainStartHeight);
        thrown == r.None?
        && (r.Some? ==> filterMesh == r && rendererMaterials == [groundMaterial, mountainMaterial, waterMaterial])
        && (r.None? ==> filterMesh == old(filterMesh) && rendererMaterials == old(rendererMaterials))
    {
      if terrain.None? || terrain.value.mesh.None? {
        return false;
      }
      thrown := CreateMultiMaterialMesh(terrain.value.mesh.value);
    }

    /** ApplyVertexColors: nothing without a terrain or a mesh; otherwise the mesh gets one colour
        per vertex of the generator's vertex array. */
    method ApplyVertexColors()
      modifies this
      ensures filterMesh == old(filterMesh) && rendererMaterials == old(rendererMaterials)
      ensures old(terrain).None? || old(terrain).value.mesh.None? ==> terrain == old(terrain)
      ensures old(terrain).Some? && old(terrain).value.mesh.Some? ==>
        terrain == Some(old(terrain).value.(mesh := Some(old(terrain).value.mesh.value.(
          colors := VertexColors(old(terrain).value.vertices, waterLevel, mountainStartHeight)))))
    {
      if terrain.None? || terrain.value.mesh.None? {
        return;
      }
      var colors := FillColors(terrain.value.vertices, waterLevel, mountainStartHeight);
      var t := terrain.value;
      terrain := Some(t.(mesh := Some(t.mesh.value.(colors := colors[..]))));
    }
  }
}
