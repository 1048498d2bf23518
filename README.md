# Procedural island world: a verified model

This project models the world-building core of a small Unity game in Dafny and proves
properties of it. The game builds a round island terrain on a square height grid, scatters
scenery props over it in clusters, spawns animals and a player on safe ground, and splits the
terrain mesh into water, ground and mountain parts. The model follows five components:

- **TerrainGenerator** (`terrain.dfy`, module `Terrain`). A row-major (S+1)² vertex array whose
  heights come from a Perlin-noise oracle plus a quadratic rim term. A 6·S² triangle index array,
  two triangles per grid cell. `FindGroundPosition` clamps, rounds and indexes into the grid, the
  slope queries guard their inputs, and `FindClosestVertex` is a first-minimum scan. The arrays
  are filled by imperative loops, each proved equal to a closed-form specification.
- **PropsPlacer** (`props.dfy`, module `Props`). Cluster scattering with four rejection rules:
  the no-ground sentinel, water (y < 0), slope, and a minimum 3-D distance to every placed prop.
  It has two paths. The seeded path draws from a `System.Random` and records `PropData`. The
  interactive path draws from `UnityEngine.Random` and instantiates as it goes. A batch loop then
  instantiates the recorded props. Every placement method of the class is proved to produce
  the state of a recursive specification function (SeededItem … SeededRun on the seeded path,
  EngineItem … EngineGroups on the interactive one). The checks `TooClose` and
  `IsValidPropPosition` are each proved equivalent to a non-recursive predicate. The
  instantiation methods are specified by the records they take in order: `InstantiateProp`
  throws exactly when its record does not resolve, `InstantiateBatch` adds a batch's records up
  to the first that does not, and `InstantiatePropsInBatches` stops at `ResolvablePrefix` after
  the batch count of `Arith.Batches`. Lemmas about those
  functions prove that separation, grounding, resolvable prefab indices and group order hold
  through a whole run.
- **AnimalSpawner** (`animals.dfy`, module `Animals`). A 20-attempt first-accept search with a
  sentinel result, a validity predicate with the physics overlap query as an oracle, the batched
  spawn loop with its counters, and the run-once `hasSpawned` guard.
- **PlayerSpawner** (`player.dfy`, module `Player`). A 50-attempt first-accept search over
  clamped vertex indices, with a fixed fallback point, and the spawn-once guard of `SpawnPlayer`.
- **MaterialApplier** (`materials.dfy`, module `Materials`). The height-based partition of the
  mesh's triangles into three submeshes, the per-vertex colouring, and the null guards.

Supporting modules:

- `geometry.dfy` (`Geometry`): vectors, the approximate `== Vector3.zero` test, the `Mathf`
  clamps and `Mathf.RoundToInt` with its round-half-to-even rule.
- `random.dfy` (`Random`): the two random generators. Each reads a supplied stream of draws and
  counts how many it has consumed.
- `arith.dfy` (`Arith`): the integer facts behind the grid indices and the batch counts.
- `wrappers.dfy` (`Wrappers`): `Option`.

Floats are modelled as reals. Noise, square roots, trigonometry, `Vector3.Distance`, the unit
circle draws, mesh normals (as per-vertex slope angles) and the physics overlap query are
supplied as functions or sequences. A C# exception becomes a `thrown`/`faulted` flag or `None`,
and the model states exactly when it occurs.

## Model

| member | source | states |
|---|---|---|
| Geometry.Clamp | Assets/Scripts/TerrainGenerator.cs:155-156 | Mathf.Clamp: inside [lo, hi] when lo <= hi, the value itself when already inside, lo below the range, hi above it |
| Geometry.ClampInt | Assets/Scripts/PlayerSpawner.cs:64-65 | Mathf.Clamp on ints: the same four facts |
| Geometry.Clamp01 | Assets/Scripts/TerrainGenerator.cs:57 | the result is in [0, 1]; 0 at or below 0, 1 at or above 1, the value itself strictly between |
| Geometry.Max | Assets/Scripts/TerrainGenerator.cs:61 | the result is one of its arguments and at least both |
| Geometry.RoundToInt | Assets/Scripts/TerrainGenerator.cs:158 | Mathf.RoundToInt: within 0.5 of the value; an exact tie goes to the even integer |
| Geometry.RoundToIntWithin | Assets/Scripts/PlayerSpawner.cs:64-65 | rounding a value between two integers stays between them |
| Geometry.DistanceBelowIff | Assets/Scripts/PropsPlacer.cs:198 | `Vector3.Distance(p, q) < m` holds exactly when the squared 3-D distance is below m² |
| Geometry.IsSentinel | Assets/Scripts/PropsPlacer.cs:184 | Unity's approximate `== Vector3.zero` (also at PropsPlacer.cs:160, 273, 292 and AnimalSpawner.cs:84, 106): the squared length is below kEpsilon²; see OriginGroundReadsAsSentinel |
| Random.NextInt | Assets/Scripts/PropsPlacer.cs:138 | System.Random.Next(lo, hi): throws exactly when lo > hi; otherwise in [lo, hi), or lo when lo == hi |
| Random.RangeInt | Assets/Scripts/PropsPlacer.cs:279 | Random.Range(int, int): in [min, max); min when equal; in (max, min] when the bounds are inverted |
| Random.RangeFloat | Assets/Scripts/PropsPlacer.cs:306 | Random.Range(float, float): in [min, max] |
| Random.ScaledFloorBounds | Assets/Scripts/PropsPlacer.cs:214 | scaling a [0, 1) sample by n and flooring lands in [0, n) |
| Random.SeededRandom.constructor | Assets/Scripts/PropsPlacer.cs:133 | a fresh seeded generator has consumed no samples |
| Random.SeededRandom.NextDouble | Assets/Scripts/PropsPlacer.cs:177 | returns the next sample and consumes it |
| Random.SeededRandom.Next | Assets/Scripts/PropsPlacer.cs:167 | returns NextInt of the next sample; a throwing call consumes nothing |
| Random.EngineRandom.Range | Assets/Scripts/PropsPlacer.cs:299 | returns RangeInt of the next integer draw and consumes one draw |
| Random.EngineRandom.RangeF | Assets/Scripts/PropsPlacer.cs:306 | returns RangeFloat of the next float draw and consumes one draw |
| Random.EngineRandom.InsideUnitCircle | Assets/Scripts/PropsPlacer.cs:289 | returns the next circle draw and consumes one draw |
| Terrain.VertexHeight | Assets/Scripts/TerrainGenerator.cs:51-61 | every final vertex height is at least -2 |
| Terrain.OutsideRadiusIsFloor | Assets/Scripts/TerrainGenerator.cs:54-61 | a grid point farther than the radius from the centre has height exactly -2 |
| Terrain.InnerDiscIsNoise | Assets/Scripts/TerrainGenerator.cs:56-61 | within 0.7 of a positive radius the rim term vanishes: height = max(noise * heightMultiplier, -2) |
| Terrain.RimBounded | Assets/Scripts/TerrainGenerator.cs:56-61 | inside the radius the rim adds at most mountainHeight to the noise height |
| Terrain.OutsideRadiusIff | Assets/Scripts/TerrainGenerator.cs:51-54 | with a true square root, "distance > radius" is the comparison of the squared distance with radius² |
| Terrain.GridVertices | Assets/Scripts/TerrainGenerator.cs:43-63 | the vertex array has exactly (S+1)² entries |
| Terrain.GridVertexAt | Assets/Scripts/TerrainGenerator.cs:47-61 | grid point (x, z) is at index z(S+1)+x, x fastest; it has those x and z, height >= -2, and -2 outside the radius |
| Terrain.VertexRowsAt | Assets/Scripts/TerrainGenerator.cs:47-62 | entry z(S+1)+x of the first m rows is grid point (x, z) |
| Terrain.GridTriangles | Assets/Scripts/TerrainGenerator.cs:66-78 | the triangle array has exactly 6·S² entries |
| Terrain.CellEntry | Assets/Scripts/TerrainGenerator.cs:67-76 | entry 6(zS+x)+j is corner j of cell (x, z): v, v+S+1, v+1, v+1, v+S+1, v+S+2 with v = z(S+1)+x |
| Terrain.RowFromFirst | Assets/Scripts/TerrainGenerator.cs:69-77 | a row of cells is its first cell's two triangles followed by the rest of the row |
| Terrain.GridTrianglesClosedForm | Assets/Scripts/TerrainGenerator.cs:66-78 | GridTriangles equals the closed form TriangleEntry (corner k mod 6 of cell k div 6), entry by entry |
| Terrain.EntryCell | Assets/Scripts/TerrainGenerator.cs:67-76 | every triangle entry index k splits as 6(zS+x)+j with x, z < S and corner j < 6 |
| Terrain.CornerBelowCount | Assets/Scripts/TerrainGenerator.cs:76 | a cell's largest corner index is below (S+1)² |
| Terrain.TrianglesInRange | Assets/Scripts/TerrainGenerator.cs:66-78 | every triangle entry is a vertex index in [0, (S+1)²) |
| Terrain.FillVertexRow | Assets/Scripts/TerrainGenerator.cs:49-62 | the inner vertex loop appends row z to what was written before |
| Terrain.FillVertices | Assets/Scripts/TerrainGenerator.cs:43-63 | the nested vertex loop builds exactly GridVertices |
| Terrain.WriteCell | Assets/Scripts/TerrainGenerator.cs:71-76 | the six writes of one cell append its two triangles |
| Terrain.FillRow | Assets/Scripts/TerrainGenerator.cs:69-77 | the inner triangle loop writes one row of S cells and advances tris by 6S and vert by S |
| Terrain.RowsFromStep | Assets/Scripts/TerrainGenerator.cs:67 | the rows still to write are the next row followed by the rest, starting S+1 vertices later (the skipped column) |
| Terrain.FillTriangles | Assets/Scripts/TerrainGenerator.cs:66-78 | the nested triangle loop builds exactly GridTriangles |
| Terrain.TerrainGenerator.constructor | Assets/Scripts/TerrainGenerator.cs:20-21 | no vertex or triangle data before generation |
| Terrain.TerrainGenerator.GenerateTerrainData | Assets/Scripts/TerrainGenerator.cs:41-79 | fresh vertex and triangle arrays equal to GridVertices and GridTriangles |
| Terrain.GridVertex | Assets/Scripts/TerrainGenerator.cs:51-61 | the vertex written for grid point (x, z): (x, height, z) with the noise-and-rim height; its properties are GridVertexAt, OutsideRadiusIsFloor and InnerDiscIsNoise |
| Terrain.FindGroundPosition | Assets/Scripts/TerrainGenerator.cs:153-164 | the ground query: clamp x and z to [0, S], round each, return the vertex at that index or the zero vector when it is out of range; characterised by GroundIsGridVertex and GroundOnGeneratedGrid |
| Terrain.SlopeAtVertex | Assets/Scripts/TerrainGenerator.cs:167-176 | the per-vertex slope query; its cases are SlopeAtVertexCases |
| Terrain.ClosestVertex | Assets/Scripts/TerrainGenerator.cs:193-209 | the result of the first-minimum scan over all vertices; FindClosestVertex is proved equal to it and ScanClosestIsFirstMinimum characterises it |
| Terrain.SlopeAtPosition | Assets/Scripts/TerrainGenerator.cs:179-190 | the slope at a position: 0 without a mesh, otherwise SlopeAtVertex of ClosestVertex; CalculateSlopeAtPosition is proved equal to it |
| Terrain.GroundIsGridVertex | Assets/Scripts/TerrainGenerator.cs:153-164 | on generated vertices both rounded coordinates are in [0, S] and the index is in range, so the sentinel branch is unreachable and the result is that grid vertex |
| Terrain.GroundOnGeneratedGrid | Assets/Scripts/TerrainGenerator.cs:155-161 | on the generated grid the ground position is the grid vertex at the rounded, clamped point |
| Terrain.OriginGroundReadsAsSentinel | Assets/Scripts/TerrainGenerator.cs:159-163 | a real vertex at the origin is returned as Vector3.zero and reads as "no ground" |
| Terrain.SlopeAtVertexCases | Assets/Scripts/TerrainGenerator.cs:167-176 | 0 without a mesh or for an index outside the normals; otherwise that vertex's angle |
| Terrain.ScanClosest | Assets/Scripts/TerrainGenerator.cs:198-206 | the index held after n steps of the scan is below n |
| Terrain.ScanClosestIsFirstMinimum | Assets/Scripts/TerrainGenerator.cs:195-208 | the scan holds a vertex of minimal distance, the first such, and none only when no distance beats float.MaxValue |
| Terrain.FindClosestVertex | Assets/Scripts/TerrainGenerator.cs:193-209 | the loop's result is the first vertex of minimal distance; 0 for an empty array; in range otherwise |
| Terrain.CalculateSlopeAtPosition | Assets/Scripts/TerrainGenerator.cs:179-190 | 0 without a mesh; with a full set of normals, the angle at some vertex |
| Props.TerrainEnv | Assets/Scripts/PropsPlacer.cs:43 | the placer's ground and slope queries are the terrain's FindGroundPosition and CalculateSlopeAtPosition |
| Props.FarFromAll | Assets/Scripts/PropsPlacer.cs:195-203 | the distance rule (also PropsPlacer.cs:321-325): no placed position is nearer than the minimum; TooClose is proved to be its negation |
| Props.ValidPropPosition | Assets/Scripts/PropsPlacer.cs:314-328 | IsValidPropPosition's three checks: y >= 0, slope at most maxSlopeAngle, FarFromAll; the method is proved equivalent to it |
| Props.Admissible | Assets/Scripts/PropsPlacer.cs:184-206 | the four checks of a candidate: not the sentinel, then ValidPropPosition; SeededItemOutcome shows a candidate is kept exactly when it passes them |
| Props.CentreRejected | Assets/Scripts/PropsPlacer.cs:159-165 | a cluster centre is skipped when it is the sentinel or steeper than maxSlopeAngle (also PropsPlacer.cs:272-277); see SeededClusterSkipped and EngineClusterSkipped |
| Props.SeparatedAppend | Assets/Scripts/PropsPlacer.cs:195-219 | appending a position far from every placed one keeps the list pairwise separated |
| Props.SeparatedApart | Assets/Scripts/PropsPlacer.cs:198 | with the true Vector3.Distance, any two separated positions are at least the minimum apart in 3-D |
| Props.SeededClusterCount | Assets/Scripts/PropsPlacer.cs:138 | seeded cluster count is in [5, 12) |
| Props.SeededItemCount | Assets/Scripts/PropsPlacer.cs:167 | seeded item count is in [min, max], max included; the call throws exactly when min > max + 1 |
| Props.EngineClusterCount | Assets/Scripts/PropsPlacer.cs:106 | interactive cluster count is in [5, 12) |
| Props.EngineItemCount | Assets/Scripts/PropsPlacer.cs:279 | interactive item count is in [min, max), max excluded; min when equal |
| Props.ItemCountRangesDiffer | Assets/Scripts/PropsPlacer.cs:167 | for the same bounds (min < max) the interactive path draws at most max - 1 items while the seeded one stays at most max; both draw 5 to 11 clusters |
| Props.SeededItemCountReachesMax | Assets/Scripts/PropsPlacer.cs:167 | the seeded path does reach max items: a sample in [0, 1) that yields exactly max, the count the interactive path never draws |
| Props.SeededCandidate | Assets/Scripts/PropsPlacer.cs:177-183 | the seeded candidate: the ground under the centre moved by the polar offset of angle u·2π and distance v·clusterRadius |
| Props.SeededRecord | Assets/Scripts/PropsPlacer.cs:209-216 | the recorded PropData: the ground position, rotation u·360, scale 0.8 + v·0.4, the drawn prefab and the group index; see SeededItemAccepted |
| Props.SeededCentre | Assets/Scripts/PropsPlacer.cs:151-159 | the seeded cluster centre: the ground under (S/2, S/2) moved by the polar offset of two samples and spawnRadius |
| Props.SeededItem | Assets/Scripts/PropsPlacer.cs:175-220 | one seeded item attempt; its outcomes are SeededItemOutcome, SeededItemRejected and SeededItemAccepted, its invariant SeededItemKeeps |
| Props.SeededItems | Assets/Scripts/PropsPlacer.cs:169-172 | count consecutive SeededItem attempts around one centre; see SeededItemsKeep and SeededItemsNoFault |
| Props.SeededCluster | Assets/Scripts/PropsPlacer.cs:149-173 | one seeded cluster; see SeededClusterSkipped, SeededClusterRuns, SeededClusterFaults and SeededClusterKeeps |
| Props.SeededClusters | Assets/Scripts/PropsPlacer.cs:140-143 | count consecutive SeededCluster calls, stopping at an exception; see SeededClustersKeep and SeededClustersNoFault |
| Props.SeededGroup | Assets/Scripts/PropsPlacer.cs:137-143 | one seeded group: the cluster-count draw, then that many clusters; see SeededGroupKeeps |
| Props.SeededGroups | Assets/Scripts/PropsPlacer.cs:135-144 | SeededGroup for each group from gi on, in order, stopping at an exception; see SeededGroupsKeep and SeededGroupsNoFault |
| Props.SeededRun | Assets/Scripts/PropsPlacer.cs:121-147 | a whole seeded run from a fresh generator and empty lists; see SeededRunConsistent, SeededRunNoFault and SeededRunInstantiable |
| Props.EngineCandidate | Assets/Scripts/PropsPlacer.cs:289-292 | the interactive candidate: the ground under the centre moved by the circle draw scaled by clusterRadius |
| Props.EngineCentre | Assets/Scripts/PropsPlacer.cs:268-272 | the interactive cluster centre: the ground under (S/2, S/2) moved by the circle draw scaled by spawnRadius |
| Props.EngineItem | Assets/Scripts/PropsPlacer.cs:287-312 | one interactive item attempt; see EngineItemRejected, EngineItemFaults, EngineItemAccepted and EngineItemKeeps |
| Props.EngineItems | Assets/Scripts/PropsPlacer.cs:281-284 | count consecutive EngineItem attempts around one centre, stopping at an exception; see EngineItemsKeep |
| Props.EngineCluster | Assets/Scripts/PropsPlacer.cs:266-285 | one interactive cluster; see EngineClusterSkipped, EngineClusterRuns and EngineClusterKeeps |
| Props.EngineClusters | Assets/Scripts/PropsPlacer.cs:108-115 | count consecutive EngineCluster calls, stopping at an exception; see EngineClustersKeep |
| Props.EngineGroup | Assets/Scripts/PropsPlacer.cs:104-116 | one interactive group: the cluster-count draw, then that many clusters; see EngineGroupKeeps |
| Props.EngineGroups | Assets/Scripts/PropsPlacer.cs:94-102 | the interactive group loop; see EngineGroupsKeep and EngineRunConsistent |
| Props.SeededItemOutcome | Assets/Scripts/PropsPlacer.cs:183-219 | a candidate is appended exactly when all four checks pass; then both lists grow by one with the same position and five draws are used; otherwise neither list changes and two draws are used |
| Props.SeededClusterSkipped | Assets/Scripts/PropsPlacer.cs:159-165 | a centre that is the sentinel or too steep skips the cluster whole: no item attempt, two draws |
| Props.EngineClusterSkipped | Assets/Scripts/PropsPlacer.cs:272-277 | the same on the interactive path, with one draw |
| Props.SeededClusterRuns | Assets/Scripts/PropsPlacer.cs:167-172 | an accepted centre makes exactly `count` item attempts after the count draw |
| Props.EngineClusterRuns | Assets/Scripts/PropsPlacer.cs:279-284 | an accepted centre makes exactly `count` item attempts |
| Props.SeededClusterFaults | Assets/Scripts/PropsPlacer.cs:167 | an inverted item range throws before any item attempt |
| Props.SeededItemKeeps | Assets/Scripts/PropsPlacer.cs:175-220 | one seeded item attempt keeps the run invariant and the record shape |
| Props.SeededItemsKeep | Assets/Scripts/PropsPlacer.cs:169-172 | a cluster's item loop keeps them too |
| Props.SeededClusterKeeps | Assets/Scripts/PropsPlacer.cs:149-173 | one seeded cluster keeps them |
| Props.SeededClustersKeep | Assets/Scripts/PropsPlacer.cs:140-143 | a group's cluster loop keeps them |
| Props.SeededGroupKeeps | Assets/Scripts/PropsPlacer.cs:137-143 | one group keeps them, raising the group bound to its own index |
| Props.SeededGroupsKeep | Assets/Scripts/PropsPlacer.cs:135-144 | the group loop keeps them |
| Props.SeededRunConsistent | Assets/Scripts/PropsPlacer.cs:129-219 | a whole seeded run, with every prefab table non-empty and samples in [0, 1): one record per placed position, in order; every position grounded and pairwise separated; rotation in [0, 360), scale in [0.8, 1.2), a prefab of its own group; records ordered by group |
| Props.SeededItemsNoFault | Assets/Scripts/PropsPlacer.cs:175-220 | an item attempt never throws |
| Props.SeededClustersNoFault | Assets/Scripts/PropsPlacer.cs:140-172 | a group whose item range is not inverted by more than one never throws |
| Props.SeededGroupsNoFault | Assets/Scripts/PropsPlacer.cs:135-144 | the group loop never throws under the same condition for every group |
| Props.SeededRunNoFault | Assets/Scripts/PropsPlacer.cs:121-147 | the whole seeded run never throws under that condition |
| Props.EngineItemKeeps | Assets/Scripts/PropsPlacer.cs:287-312 | one interactive item attempt keeps the run invariant and the instance shape, and does not throw |
| Props.EngineItemsKeep | Assets/Scripts/PropsPlacer.cs:281-284 | a cluster's item loop keeps them |
| Props.EngineClusterKeeps | Assets/Scripts/PropsPlacer.cs:266-285 | one interactive cluster keeps them |
| Props.EngineClustersKeep | Assets/Scripts/PropsPlacer.cs:108-115 | a group's cluster loop keeps them |
| Props.EngineGroupKeeps | Assets/Scripts/PropsPlacer.cs:104-116 | one group keeps them |
| Props.EngineGroupsKeep | Assets/Scripts/PropsPlacer.cs:96-99 | the group loop keeps them |
| Props.EngineRunConsistent | Assets/Scripts/PropsPlacer.cs:86-102 | a whole interactive run from cleared lists, with every prefab table non-empty and draws in range: the same separation, grounding, resolvability and group order; whole-degree rotation in [0, 360); scale in [0.8, 1.2]; no exception |
| Props.SeededItemRejected | Assets/Scripts/PropsPlacer.cs:183-206 | a rejected seeded candidate consumes two draws and changes nothing else |
| Props.SeededItemAccepted | Assets/Scripts/PropsPlacer.cs:209-219 | an accepted seeded candidate appends its position and the record drawn from the next three samples |
| Props.EngineItemRejected | Assets/Scripts/PropsPlacer.cs:292-297 | a rejected interactive candidate consumes one draw and changes nothing else |
| Props.EngineItemFaults | Assets/Scripts/PropsPlacer.cs:299 | a prefab index outside the table throws after two draws, before anything is placed |
| Props.EngineItemAccepted | Assets/Scripts/PropsPlacer.cs:299-311 | an accepted interactive candidate appends its position and the instance drawn from the next three draws |
| Props.ResolvablePrefix | Assets/Scripts/PropsPlacer.cs:255-256 | the records before the result all resolve, and the record at the result does not |
| Props.BatchAdvance | Assets/Scripts/PropsPlacer.cs:238-246 | one batch either completes, moving i on by propsPerFrame and counting one batch, or stops at the first unresolvable record |
| Props.BatchDone | Assets/Scripts/PropsPlacer.cs:236-250 | at the end every record was processed in ceil(N / propsPerFrame) batches, or the throw came at the first unresolvable record |
| Props.SeededRunInstantiable | Assets/Scripts/PropsPlacer.cs:253-256 | with non-empty prefab tables, every record of a seeded run resolves |
| Props.PropsPlacer.constructor | Assets/Scripts/PropsPlacer.cs:44-54 | every list starts empty and there is no container |
| Props.PropsPlacer.TooClose | Assets/Scripts/PropsPlacer.cs:195-203 | the scan finds a close prop exactly when some placed position is nearer than the minimum |
| Props.PropsPlacer.IsValidPropPosition | Assets/Scripts/PropsPlacer.cs:314-328 | true exactly when the position is above water, not too steep, and far from every placed position |
| Props.PropsPlacer.GenerateSinglePropData | Assets/Scripts/PropsPlacer.cs:175-220 | the new lists and generator state are SeededItem of the old ones |
| Props.PropsPlacer.GenerateClusterData | Assets/Scripts/PropsPlacer.cs:149-173 | the new state is SeededCluster of the old one |
| Props.PropsPlacer.GenerateClusterItems | Assets/Scripts/PropsPlacer.cs:169-172 | the item loop's state is SeededItems of the old one |
| Props.PropsPlacer.GeneratePropsDataAsync | Assets/Scripts/PropsPlacer.cs:121-147 | no groups: nothing changes; otherwise both lists are the output of SeededRun, a function of the settings, the terrain and the samples only |
| Props.PropsPlacer.GenerateGroups | Assets/Scripts/PropsPlacer.cs:135-144 | the group loop's state is SeededGroups of the old one |
| Props.PropsPlacer.GenerateGroupData | Assets/Scripts/PropsPlacer.cs:137-143 | one group's state is SeededGroup of the old one |
| Props.PropsPlacer.GenerateGroupClusters | Assets/Scripts/PropsPlacer.cs:140-143 | the cluster loop's state is SeededClusters of the old one |
| Props.PropsPlacer.PlaceProps | Assets/Scripts/PropsPlacer.cs:78-92 | no groups: nothing changes and nothing is drawn; otherwise the lists are cleared and the state is EngineGroups from empty |
| Props.PropsPlacer.PlacePropsAsync | Assets/Scripts/PropsPlacer.cs:94-102 | the state is EngineGroups of the old one |
| Props.PropsPlacer.PlacePropGroupAsync | Assets/Scripts/PropsPlacer.cs:104-116 | the state is EngineGroup of the old one |
| Props.PropsPlacer.TryPlaceCluster | Assets/Scripts/PropsPlacer.cs:266-285 | the state is EngineCluster of the old one |
| Props.PropsPlacer.TryPlaceClusterItems | Assets/Scripts/PropsPlacer.cs:281-284 | the item loop's state is EngineItems of the old one |
| Props.PropsPlacer.PlaceSinglePropInCluster | Assets/Scripts/PropsPlacer.cs:287-312 | the state is EngineItem of the old one |
| Props.PropsPlacer.InstantiateProp | Assets/Scripts/PropsPlacer.cs:253-264 | throws exactly when the record's group or prefab index is out of range; otherwise one instance is added to the container |
| Props.PropsPlacer.InstantiateBatch | Assets/Scripts/PropsPlacer.cs:240-244 | the inner loop instantiates the batch in order, stopping only at the first unresolvable record |
| Props.PropsPlacer.InstantiatePropsInBatches | Assets/Scripts/PropsPlacer.cs:225-251 | the container exists; the records are instantiated in increasing order up to the first unresolvable one; propsProcessed counts them; without a throw batchesProcessed = ceil(N / propsPerFrame) |
| Animals.TerrainWorld | Assets/Scripts/AnimalSpawner.cs:104 | the spawner's ground and slope queries are the terrain's |
| Animals.ValidSpawnPosition | Assets/Scripts/AnimalSpawner.cs:114-139 | the validity test: above water, slope at most 45, and no overlap hit when the "Props" layer exists; IsValidSpawnPosition is proved equal to it |
| Animals.Candidate | Assets/Scripts/AnimalSpawner.cs:100-104 | the ground point of the attempt reading circle draw k: under (S/2, S/2) moved by the draw scaled by spawnRadius |
| Animals.Acceptable | Assets/Scripts/AnimalSpawner.cs:106-107 | an attempt is accepted when its point is not the sentinel and ValidSpawnPosition holds |
| Animals.Search | Assets/Scripts/AnimalSpawner.cs:98-108 | the draw of the first accepted attempt among twenty, if any; see FirstAcceptableIsFirst and SearchAccepts |
| Animals.SpawnSearch | Assets/Scripts/AnimalSpawner.cs:96-112 | the 20-attempt search: its position and draw count; see SearchAccepts and SpawnSearchSentinel |
| Animals.SpawnFound | Assets/Scripts/AnimalSpawner.cs:88-94 | creating the animal at a found position; see SpawnFoundFaults and SpawnFoundSpawns |
| Animals.SpawnStep | Assets/Scripts/AnimalSpawner.cs:81-95 | one SpawnAnimal call; see SpawnStepOutcome |
| Animals.SpawnCalls | Assets/Scripts/AnimalSpawner.cs:63-75 | m consecutive SpawnAnimal calls; see SpawnCallsKeep |
| Animals.FirstAcceptable | Assets/Scripts/AnimalSpawner.cs:98-108 | the attempt the search stops at lies in the attempt window |
| Animals.FirstAcceptableIsFirst | Assets/Scripts/AnimalSpawner.cs:98-111 | the search names an accepted attempt with every earlier one rejected; no result means every attempt was rejected |
| Animals.FirstAcceptableIs | Assets/Scripts/AnimalSpawner.cs:98-108 | conversely, the first accepted attempt is the one the search reports |
| Animals.SearchAccepts | Assets/Scripts/AnimalSpawner.cs:106-107 | the position the search returns is non-sentinel and valid |
| Animals.SpawnSearchSentinel | Assets/Scripts/AnimalSpawner.cs:110-111 | the search returns the sentinel exactly when all twenty attempts were rejected |
| Animals.SpawnStepOutcome | Assets/Scripts/AnimalSpawner.cs:81-95 | one SpawnAnimal call creates nothing (sentinel or throw) or appends one animal at a valid position with an in-range prefab and yaw; it throws exactly when a position was found and the prefab table is empty |
| Animals.SpawnCallsKeep | Assets/Scripts/AnimalSpawner.cs:63-75 | a run of m calls keeps the earlier animals, adds at most m, every added one well spawned, and never throws with a non-empty prefab table |
| Animals.SpawnFoundFaults | Assets/Scripts/AnimalSpawner.cs:88 | an out-of-range prefab index throws after one draw |
| Animals.SpawnFoundSpawns | Assets/Scripts/AnimalSpawner.cs:88-94 | otherwise the animal is appended with the drawn prefab and the drawn yaw |
| Animals.AnimalSpawner.constructor | Assets/Scripts/AnimalSpawner.cs:20-25 | no animals, no container, not yet spawned |
| Animals.AnimalSpawner.IsValidSpawnPosition | Assets/Scripts/AnimalSpawner.cs:114-139 | rejects y < 0 and slope > 45; rejects an overlap hit only when the "Props" layer exists |
| Animals.AnimalSpawner.GetRandomSpawnPosition | Assets/Scripts/AnimalSpawner.cs:96-112 | the loop's result and draw count are SpawnSearch's |
| Animals.AnimalSpawner.CreateAnimal | Assets/Scripts/AnimalSpawner.cs:88-94 | the new animals and draw count are SpawnFound's |
| Animals.AnimalSpawner.SpawnAnimal | Assets/Scripts/AnimalSpawner.cs:81-95 | the state is SpawnStep of the old one; false with nothing created on the sentinel; true exactly when one animal was added |
| Animals.AnimalSpawner.SpawnBatch | Assets/Scripts/AnimalSpawner.cs:67-71 | the inner loop makes the calls i to batchEnd and counts the successful ones |
| Animals.AnimalSpawner.SpawnAnimalsRoutine | Assets/Scripts/AnimalSpawner.cs:36-79 | exactly numberOfAnimals SpawnAnimal calls; spawnedCount is the number that returned true, so at most numberOfAnimals; without a throw batchCount = ceil(numberOfAnimals / animalsPerFrame) and hasSpawned is set |
| Animals.AnimalSpawner.SpawnAnimals | Assets/Scripts/AnimalSpawner.cs:27-31 | after a completed routine nothing changes and nothing is drawn; otherwise the routine runs |
| Player.SampleCoord | Assets/Scripts/PlayerSpawner.cs:60-61 | Random.Range(0.2 S, 0.8 S) of one float draw; see SampleInBand |
| Player.AttemptIndex | Assets/Scripts/PlayerSpawner.cs:64-66 | the vertex index zi(S+1)+xi of the rounded coordinates clamped to [0, S]; see AttemptIndexInRange |
| Player.SampleInBand | Assets/Scripts/PlayerSpawner.cs:60-61 | a sampled coordinate lies in [0.2 S, 0.8 S] |
| Player.AttemptIndexInRange | Assets/Scripts/PlayerSpawner.cs:64-66 | the vertex index zi(S+1)+xi is in [0, (S+1)²) |
| Player.VertexSlope | Assets/Scripts/PlayerSpawner.cs:82-91 | 0 outside the vertex array; 0 (the up normal) past the end of the normals; the vertex's angle otherwise; a missing mesh throws |
| Player.VertexSlopeAgreesWithTerrain | Assets/Scripts/PlayerSpawner.cs:82-91 | with a mesh, inside the vertex array, it agrees with TerrainGenerator's slope query: the vertex's angle inside the normals, 0 past their end |
| Player.AttemptAt | Assets/Scripts/PlayerSpawner.cs:60-72 | one attempt at draw c: accepted, rejected or thrown; see AcceptedAttempt and AttemptThrows |
| Player.AcceptedAttempt | Assets/Scripts/PlayerSpawner.cs:60-72 | an accepted attempt is (x, vertex height + 2, z) at the unrounded samples, inside the band, with slope < 30 at an in-range vertex |
| Player.AttemptThrows | Assets/Scripts/PlayerSpawner.cs:66-69 | an attempt throws exactly when the index misses the vertex array or there is no mesh; never on a generated terrain with its mesh |
| Player.AttemptStartNext | Assets/Scripts/PlayerSpawner.cs:58 | each attempt starts two draws after the previous one |
| Player.Fallback | Assets/Scripts/PlayerSpawner.cs:76 | the fixed fallback point (S/2, heightMultiplier + 2, S/2); see SafeSearchFallback |
| Player.SafeSearch | Assets/Scripts/PlayerSpawner.cs:56-77 | the 50-attempt search: position or exception, and draw count; see SafeSearchFallback, SafeSearchDecided, SafeSearchNeverThrows and SafeSearchAccepted |
| Player.FirstDecisive | Assets/Scripts/PlayerSpawner.cs:58-73 | the attempt the search stops at lies in the window and starts on an attempt boundary |
| Player.FirstDecisiveIsFirst | Assets/Scripts/PlayerSpawner.cs:58-73 | the search stops at the first attempt that accepts or throws; no result means all fifty were rejected |
| Player.SafeSearchFallback | Assets/Scripts/PlayerSpawner.cs:76 | if all fifty attempts are rejected, the result is exactly (S/2, heightMultiplier + 2, S/2) after 100 draws |
| Player.SafeSearchDecided | Assets/Scripts/PlayerSpawner.cs:58-73 | otherwise the first accepting attempt's position is returned, or the first throwing attempt's exception |
| Player.SafeSearchNeverThrows | Assets/Scripts/PlayerSpawner.cs:56-77 | on a generated terrain with its mesh the search never throws |
| Player.SafeSearchAccepted | Assets/Scripts/PlayerSpawner.cs:56-77 | a returned position is the fallback or is inside the band at a vertex with slope < 30, two units above it |
| Player.PlayerSpawner.constructor | Assets/Scripts/PlayerSpawner.cs:24-29 | no player yet |
| Player.PlayerSpawner.TryAttempt | Assets/Scripts/PlayerSpawner.cs:60-72 | one loop body: AttemptAt of the current draws, two draws consumed |
| Player.PlayerSpawner.FindSafeSpawnPosition | Assets/Scripts/PlayerSpawner.cs:56-77 | the loop's result, draw count and exception are SafeSearch's |
| Player.PlayerSpawner.SpawnPlayer | Assets/Scripts/PlayerSpawner.cs:24-32 | no prefab, or a player already present: nothing changes and nothing is drawn; otherwise the player is placed at the safe position, so it spawns at most once |
| Materials.Classify | Assets/Scripts/MaterialApplier.cs:59-79 | Water at or below waterLevel, even when the thresholds overlap; otherwise Mountain at or above mountainStartHeight; otherwise Ground |
| Materials.ClassifyIff | Assets/Scripts/MaterialApplier.cs:59-79 | each zone's exact condition, in both directions |
| Materials.TriangleZone | Assets/Scripts/MaterialApplier.cs:57-79 | a triangle's zone: Classify of its three vertices' average height; see UniformTriangle |
| Materials.UniformTriangle | Assets/Scripts/MaterialApplier.cs:57-79 | a triangle whose three vertices share a zone is in that zone (by its average height) |
| Materials.Faults | Assets/Scripts/MaterialApplier.cs:51-57 | the loop throws exactly when the array ends in a partial triangle or an entry names no vertex; see SplitTriangles |
| Materials.AddTriangle | Assets/Scripts/MaterialApplier.cs:59-79 | one triangle, its three entries in order, added to its zone's list and no other; see SelectOne and SplitStep |
| Materials.Split | Assets/Scripts/MaterialApplier.cs:51-80 | the three lists the loop builds, triangle by triangle; see SplitIsSelect and SplitStep |
| Materials.Select | Assets/Scripts/MaterialApplier.cs:51-80 | the triangles of one zone, in order; see SelectLengths, SelectOne and SelectAppend |
| Materials.SplitIsSelect | Assets/Scripts/MaterialApplier.cs:51-80 | the three lists are the order-preserving selections of the triangles of each zone |
| Materials.SelectLengths | Assets/Scripts/MaterialApplier.cs:51-80 | for a length that is a multiple of 3, each triple lands in exactly one list: the lengths sum to triangles.Length, and each is a multiple of 3 |
| Materials.SelectOne | Assets/Scripts/MaterialApplier.cs:62-78 | a single triangle goes, with its vertices in order, to its own zone's list only |
| Materials.SelectAppend | Assets/Scripts/MaterialApplier.cs:51-80 | selection distributes over concatenation, so the relative order of triangles is kept |
| Materials.SplitTriangles | Assets/Scripts/MaterialApplier.cs:51-57 | the loop throws exactly when the length is not a multiple of 3 or an index misses the vertex array |
| Materials.MultiMaterialMeshShape | Assets/Scripts/MaterialApplier.cs:83-92 | vertices, normals and uv are copied unchanged; three submeshes (ground, mountain, water) that partition the triangles |
| Materials.MultiMaterialMesh | Assets/Scripts/MaterialApplier.cs:37-104 | the mesh CreateMultiMaterialMesh builds, or None when the loop throws; see MultiMaterialMeshShape |
| Materials.GeneratedMeshSplits | Assets/Scripts/MaterialApplier.cs:48-57 | the generator's triangle array never makes the loop throw |
| Materials.SplitStep | Assets/Scripts/MaterialApplier.cs:51-80 | one more triangle adds it to its own zone's list |
| Materials.AppendTriangle | Assets/Scripts/MaterialApplier.cs:57-79 | the loop body adds the triangle to the list of its average height's zone |
| Materials.SeparateTriangles | Assets/Scripts/MaterialApplier.cs:43-80 | the loop's three lists, or its exception, are SplitTriangles' |
| Materials.ZoneColor | Assets/Scripts/MaterialApplier.cs:127-137 | blue for water, gray for mountain, green for ground; see ZoneColorInjective and VertexColors |
| Materials.ZoneColorInjective | Assets/Scripts/MaterialApplier.cs:129-137 | blue, gray and green are distinct, so a colour tells its zone |
| Materials.VertexColors | Assets/Scripts/MaterialApplier.cs:121-139 | one colour per vertex, the colour of its height's zone by the same threshold order |
| Materials.ColoursAgreeWithPartition | Assets/Scripts/MaterialApplier.cs:57-139 | a triangle whose vertices share a colour is in the submesh of that colour's zone |
| Materials.FillColors | Assets/Scripts/MaterialApplier.cs:121-139 | the colour loop fills a fresh array equal to VertexColors |
| Materials.MaterialApplier.constructor | Assets/Scripts/MaterialApplier.cs:17-21 | the component holds its settings and its terrain; it has given no mesh yet |
| Materials.MaterialApplier.CreateMultiMaterialMesh | Assets/Scripts/MaterialApplier.cs:37-104 | the filter gets the three-submesh mesh and the renderer the materials [ground, mountain, water]; when the loop throws nothing changes |
| Materials.MaterialApplier.ApplyMaterials | Assets/Scripts/MaterialApplier.cs:23-35 | nothing changes without a terrain or a mesh; otherwise CreateMultiMaterialMesh's effect |
| Materials.MaterialApplier.ApplyVertexColors | Assets/Scripts/MaterialApplier.cs:117-145 | nothing changes without a terrain or a mesh; otherwise the mesh's colours become VertexColors of the terrain's vertices |

## Left out

- Engine calls are not modelled: `Instantiate`, `EnsureCollider`, `SetParent`, transforms and
  rotations as objects, `GameObject.Find`, `AddComponent`, and the player's component setup
  (CharacterController, SimplePlayer fields, camera tag). Instances are recorded by their
  position, prefab index, rotation and scale.
- Coroutine scheduling is not modelled: `yield`, the `WaitUntil`/`WaitForSeconds` waits,
  `i % 3 == 0` in PlacePropGroupAsync, and the background-thread offload. Each routine is
  modelled as its loops run to completion.
- `ApplyTerrainMesh`, the NavMesh setup, `IsNavMeshReady` and `RecalculateNormals`/`RecalculateBounds`
  are not modelled. Normals enter only as the per-vertex slope angles supplied with the terrain.
- Oracles cover the floating-point numerics that are not arithmetic. `Mathf.PerlinNoise`, the
  square root of `Vector2.Distance`, `Vector3.Distance`, `Vector3.Angle`, Cos/Sin and
  `Random.insideUnitCircle` are supplied functions or draw streams. `Physics.OverlapSphere` and
  `LayerMask.NameToLayer` are part of the supplied world.
- A negative `terrainSize` is not modelled. The C# field is an `int`, but every model type holds
  the size as a `nat`, so a run with a negative size is outside the model (for S = −2 the source
  builds one vertex and 24 zero triangle entries). A negative size is a configuration error
  that callers must rule out.
- Props.SeededRunConsistent, Props.EngineRunConsistent: separation and grounding are proved
  only together with resolvability, so both lemmas require non-empty prefab tables. With an
  empty table the source still keeps its props separated and grounded, but this model does not
  prove that case.
- Floats are exact reals. Single-precision rounding is not modelled (for example the average of
  three heights, or `i * noiseScale`), and neither is 32-bit overflow of integer arithmetic: the
  grid indices, `maxPropsInCluster + 1` at PropsPlacer.cs:167 (which wraps for int.MaxValue, so
  the source's `Next` throws where SeededItemCount does not), and the batch bounds
  `i + propsPerFrame` and `i + animalsPerFrame`.
- Unity's `== Vector3.zero` is approximate. It is modelled by its definition: the squared length
  is below kEpsilon² (1e-10).
- Both transform conversions are taken as the identity: `InverseTransformPoint` in
  CalculateSlopeAtPosition, and the SetParent of the animal container.
- `PropsPlacer.Update` (shadow toggling at night) and every `Debug.Log` call are left out.
- `MaterialApplier.ApplySingleMaterial` is not modelled. It is an alternative to the partition
  with no logic beyond a null check.
- A missing MeshRenderer or MeshFilter in MaterialApplier is not modelled. Both are required
  components. Normals and UVs are copied as values.
- `RecalculateNormals` after ApplyVertexColors is not modelled, as above.
- InstantiatePropsInBatches, SpawnAnimalsRoutine: a batch size of 0 or less with a non-empty list
  never terminates in the source. These methods require a positive batch size in that case.
- Random.RangeInt, Random.EngineRandom.Range: `Random.Range(0, 0)` is modelled as returning 0 and
  consuming one draw, like every other call.
- Random.RangeInt: for inverted bounds the result lies in (max, min]. This follows the engine's
  native `Random.Range`, whose code is not part of this model, not anything in the repository.
  The interactive item count (PropsPlacer.cs:279) reaches that case when a group has min > max.
- Terrain.SlopeAtVertexCases: `Vector3.Angle` of a normal is a supplied angle, so the model does
  not show that the up normal gives 0. PlayerSpawner's default normal gives 0 by definition.
- Player.VertexSlope: a PlayerSpawner whose terrain has no mesh throws in the normals access.
  The model reports this as an exception (None) rather than modelling a null reference.
- Materials.TriangleZone: on an invalid vertex index it returns Ground. The partition never
  reaches that case, because the loop throws first.
