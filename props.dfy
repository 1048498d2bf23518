/** PropsPlacer: clustered scenery placement with rejection rules, on two paths.
    The seeded path (GeneratePropsDataAsync) draws from a System.Random seeded with 12345 and
    records PropData for later batched instantiation; the interactive path (PlaceProps) draws
    from UnityEngine.Random and instantiates as it goes. Both share one growing list of placed
    positions, and every accepted position keeps its 3-D distance from all earlier ones. */
module Props {
  import opened Geometry
  import opened Wrappers
  import opened Terrain
  import opened Random
  import Arith

  /** PropsPlacer.PropGroup: the variant table is represented by its length (the variants themselves
      are opaque assets); the group name is presentation only. */
  datatype PropGroup = PropGroup(prefabCount: nat, minPropsInCluster: int, maxPropsInCluster: int, clusterRadius: real)

  /** PropsPlacer.PropData: one accepted placement. On the interactive path the same five facts
      describe the GameObject that was instantiated. */
  datatype PropData = PropData(position: Vec3, rotation: real, scale: real, prefabIndex: int, groupIndex: int)

  /** The inspector settings of a PropsPlacer. */
  datatype Settings = Settings(
    propGroups: seq<PropGroup>,
    spawnRadius: real,
    maxSlopeAngle: real,
    minDistanceBetweenProps: real,
    propsPerFrame: int)

  /** What placement reads but does not own: the published terrain, the trigonometry that turns
      an (angle, distance) draw into the planar offset (Cos(angle) * distance, Sin(angle) * distance),
      Vector3.Distance, and the terrain's two queries, FindGroundPosition and
      CalculateSlopeAtPosition, as functions (TerrainQueries says they are the terrain's). */
  datatype Env = Env(terrainSize: nat, polar: (real, real) -> Vec2, distance: (Vec3, Vec3) -> real, ground: Vec2 -> Vec3, slope: Vec3 -> real)

  /** The ground and slope queries placement uses are those of the published terrain. */
  ghost predicate TerrainQueries(env: Env, t: TerrainView) {
    env.terrainSize == t.params.terrainSize
    && (forall xz :: env.ground(xz) == FindGroundPosition(t, xz))
    && (forall p :: env.slope(p) == SlopeAtPosition(t, env.distance, p))
  }

  /** The environment a placer on terrain t sees: its size, its two queries, and the given
      trigonometry and distance. */
  function TerrainEnv(t: TerrainView, polar: (real, real) -> Vec2, distance: (Vec3, Vec3) -> real): (env: Env)
    ensures TerrainQueries(env, t) && env.polar == polar && env.distance == distance
  {
    Env(t.params.terrainSize, polar, distance, xz => FindGroundPosition(t, xz), p => SlopeAtPosition(t, distance, p))
  }

  /** The state one placement pass threads through its loops: placedPositions, the records produced
      (propsToInstantiate on the seeded path, allProps on the interactive path), how many draws were
      consumed, and whether a System.Random call threw. */
  datatype Session = Session(placed: seq<Vec3>, records: seq<PropData>, cursor: nat, faulted: bool)

  /** Mathf.PI, widened to double as the seeded path uses it. */
  const Pi: real := 3.1415927410125732

  /** Every variant table is non-empty (an empty one is a configuration error the code does not guard). */
  predicate AllNonEmpty(groups: seq<PropGroup>) {
    forall i :: 0 <= i < |groups| ==> groups[i].prefabCount > 0
  }

  // ---------------------------------------------------------------- rejection rules

  /** No placed position is closer than m (Vector3.Distance, a 3-D distance) to p. */
  predicate FarFromAll(placed: seq<Vec3>, p: Vec3, m: real, distance: (Vec3, Vec3) -> real) {
    forall i :: 0 <= i < |placed| ==> distance(placed[i], p) >= m
  }

  /** Any two placed positions are at least m apart. */
  predicate Separated(ps: seq<Vec3>, m: real, distance: (Vec3, Vec3) -> real) {
    forall i, j :: 0 <= i < j < |ps| ==> distance(ps[i], ps[j]) >= m
  }

  /** IsValidPropPosition: above water, not too steep, and far enough from everything placed. */
  predicate ValidPropPosition(s: Settings, env: Env, placed: seq<Vec3>, pos: Vec3) {
    pos.y >= 0.0 && env.slope(pos) <= s.maxSlopeAngle
    && FarFromAll(placed, pos, s.minDistanceBetweenProps, env.distance)
  }

  /** The four checks a candidate ground position must pass on either path. */
  predicate Admissible(s: Settings, env: Env, placed: seq<Vec3>, pos: Vec3) {
    !IsSentinel(pos) && ValidPropPosition(s, env, placed, pos)
  }

  /** A cluster centre is rejected when there is no ground or it is too steep. */
  predicate CentreRejected(s: Settings, env: Env, centre: Vec3) {
    IsSentinel(centre) || env.slope(centre) > s.maxSlopeAngle
  }

  lemma SeparatedAppend(ps: seq<Vec3>, p: Vec3, m: real, distance: (Vec3, Vec3) -> real)
    requires Separated(ps, m, distance) && FarFromAll(ps, p, m, distance)
    ensures Separated(ps + [p], m, distance)
  {
    var qs := ps + [p];
    forall i, j | 0 <= i < j < |qs|
      ensures distance(qs[i], qs[j]) >= m
    {
      if j == |ps| {
        assert qs[i] == ps[i] && qs[j] == p;
      } else {
        assert qs[i] == ps[i] && qs[j] == ps[j];
      }
    }
  }

  /** With the true Vector3.Distance, separation is the statement on squared distances: any two
      placed positions are at least m apart in 3-D. */
  lemma SeparatedApart(ps: seq<Vec3>, m: real, distance: (Vec3, Vec3) -> real, i: int, j: int)
    requires EuclideanDistance(distance) && Separated(ps, m, distance) && 0 <= i < j < |ps|
    ensures !CloserThan(ps[i], ps[j], m)
  {
    DistanceBelowIff(ps[i], ps[j], m, distance(ps[i], ps[j]));
  }

  // ---------------------------------------------------------------- candidate points

  /** `new Vector2(terrain.terrainSize / 2f, terrain.terrainSize / 2f)`. */
  function CentreXZ(env: Env): Vec2 {
    var h := env.terrainSize as real / 2.0;
    Vec2(h, h)
  }

  /** The planar point at offset `off` from a ground point (its x and z). */
  function Around(c: Vec3, off: Vec2): Vec2 {
    Vec2(c.x + off.x, c.z + off.y)
  }

  // ---------------------------------------------------------------- draw ranges

  /** seedRandom.Next(5, 12): the cluster count of one group on the seeded path. */
  function SeededClusterCount(u: real): (k: int)
    ensures 0.0 <= u < 1.0 ==> 5 <= k < 12
  {
    NextInt(u, 5, 12).value
  }

  /** seedRandom.Next(min, max + 1): the item count of a cluster on the seeded path, with max
      included; None when min > max + 1, where the call throws. */
  function SeededItemCount(u: real, g: PropGroup): (k: Option<int>)
    ensures k.None? <==> g.minPropsInCluster > g.maxPropsInCluster + 1
    ensures 0.0 <= u < 1.0 && g.minPropsInCluster <= g.maxPropsInCluster ==>
      k.Some? && g.minPropsInCluster <= k.value <= g.maxPropsInCluster
    ensures 0.0 <= u < 1.0 && g.minPropsInCluster == g.maxPropsInCluster + 1 ==> k == Some(g.minPropsInCluster)
  {
    NextInt(u, g.minPropsInCluster, g.maxPropsInCluster + 1)
  }

  /** Mathf.RoundToInt(Random.Range(5, 12)): the cluster count of one group on the interactive path. */
  function EngineClusterCount(u: real): (k: int)
    ensures 0.0 <= u < 1.0 ==> 5 <= k < 12
  {
    RoundToInt(RangeInt(u, 5, 12) as real)
  }

  /** Random.Range(min, max): the item count of a cluster on the interactive path, with max excluded. */
  function EngineItemCount(u: real, g: PropGroup): (k: int)
    ensures 0.0 <= u < 1.0 && g.minPropsInCluster < g.maxPropsInCluster ==>
      g.minPropsInCluster <= k < g.maxPropsInCluster
    ensures g.minPropsInCluster == g.maxPropsInCluster ==> k == g.minPropsInCluster
    ensures 0.0 <= u < 1.0 && g.minPropsInCluster > g.maxPropsInCluster ==>
      g.maxPropsInCluster < k <= g.minPropsInCluster
  {
    RangeInt(u, g.minPropsInCluster, g.maxPropsInCluster)
  }

  /** The two paths draw the same cluster-count range but different item-count ranges: for the same
      bounds the seeded path places at most max items per cluster (and SeededItemCountReachesMax shows
      it reaches max), the interactive path at most max - 1. */
  lemma ItemCountRangesDiffer(u: real, v: real, g: PropGroup)
    requires 0.0 <= u < 1.0 && 0.0 <= v < 1.0 && g.minPropsInCluster < g.maxPropsInCluster
    ensures SeededItemCount(u, g).value <= g.maxPropsInCluster
    ensures EngineItemCount(v, g) <= g.maxPropsInCluster - 1
    ensures 5 <= SeededClusterCount(u) < 12 && 5 <= EngineClusterCount(v) < 12
  {
  }

  /** The seeded path does reach max: with n = max + 1 - min choices, the sample (n - 1) / n gives
      exactly max items, a count the interactive path never draws (ItemCountRangesDiffer). */
  lemma SeededItemCountReachesMax(g: PropGroup) returns (u: real)
    requires g.minPropsInCluster <= g.maxPropsInCluster
    ensures 0.0 <= u < 1.0 && SeededItemCount(u, g) == Some(g.maxPropsInCluster)
  {
    var n := g.maxPropsInCluster + 1 - g.minPropsInCluster;
    u := (n - 1) as real / n as real;
    assert u * n as real == (n - 1) as real;
  }

  // ---------------------------------------------------------------- the seeded path

  /** The planar offset of the seeded path for an angle sample and a distance sample:
      angle = sample * 2 * PI, distance = sample * radius. */
  function SeededOffset(polar: (real, real) -> Vec2, angleSample: real, distanceSample: real, radius: real): (off: Vec2) {
    polar(angleSample * 2.0 * Pi, distanceSample * radius)
  }

  /** The PropData GenerateSinglePropData records: rotation = sample * 360, scale = 0.8 + sample * 0.4. */
  function SeededRecord(ground: Vec3, u: real, v: real, prefab: int, gi: nat): (r: PropData) {
    PropData(ground, u * 360.0, 0.8 + v * 0.4, prefab, gi)
  }

  /** GenerateSinglePropData's ground position for the draws at k and k + 1. */
  function SeededCandidate(env: Env, samples: nat -> real, radius: real, centre: Vec3, k: nat): (p: Vec3) {
    env.ground(Around(centre, SeededOffset(env.polar, samples(k), samples(k + 1), radius)))
  }

  /** GenerateSinglePropData: two draws place the candidate; an accepted one takes three more,
      for rotation, scale and variant, in that order. */
  function SeededItem(s: Settings, env: Env, samples: nat -> real, gi: nat, centre: Vec3, st: Session): (r: Session)
    requires gi < |s.propGroups|
  {
    var g := s.propGroups[gi];
    var k := st.cursor;
    var ground := SeededCandidate(env, samples, g.clusterRadius, centre, k);
    if !Admissible(s, env, st.placed, ground) then st.(cursor := k + 2)
    else
      var record := SeededRecord(ground, samples(k + 2), samples(k + 3), NextInt(samples(k + 4), 0, g.prefabCount).value, gi);
      Session(st.placed + [ground], st.records + [record], k + 5, st.faulted)
  }

  /** `count` consecutive item attempts of one cluster. */
  function SeededItems(s: Settings, env: Env, samples: nat -> real, gi: nat, centre: Vec3, count: int, st: Session): (r: Session)
    requires gi < |s.propGroups|
    decreases count
  {
    if count <= 0 then st
    else SeededItems(s, env, samples, gi, centre, count - 1, SeededItem(s, env, samples, gi, centre, st))
  }

  /** GenerateClusterData's centre for the draws at k and k + 1. */
  function SeededCentre(s: Settings, env: Env, samples: nat -> real, k: nat): (p: Vec3) {
    env.ground(Plus2(CentreXZ(env), SeededOffset(env.polar, samples(k), samples(k + 1), s.spawnRadius)))
  }

  /** GenerateClusterData: two draws for the centre; a rejected centre ends the cluster, otherwise one
      draw for the item count and that many item attempts. */
  function SeededCluster(s: Settings, env: Env, samples: nat -> real, gi: nat, st: Session): (r: Session)
    requires gi < |s.propGroups|
  {
    var k := st.cursor;
    var centre := SeededCentre(s, env, samples, k);
    if CentreRejected(s, env, centre) then st.(cursor := k + 2)
    else
      match SeededItemCount(samples(k + 2), s.propGroups[gi])
      case None => st.(cursor := k + 2, faulted := true)
      case Some(count) => SeededItems(s, env, samples, gi, centre, count, st.(cursor := k + 3))
  }

  /** `count` consecutive clusters of one group; an exception ends the run. */
  function SeededClusters(s: Settings, env: Env, samples: nat -> real, gi: nat, count: int, st: Session): (r: Session)
    requires gi < |s.propGroups|
    decreases count
  {
    if count <= 0 || st.faulted then st
    else SeededClusters(s, env, samples, gi, count - 1, SeededCluster(s, env, samples, gi, st))
  }

  /** One iteration of GeneratePropsDataAsync's group loop: one draw for the cluster count, then
      that many clusters. */
  function SeededGroup(s: Settings, env: Env, samples: nat -> real, gi: nat, st: Session): (r: Session)
    requires gi < |s.propGroups|
  {
    SeededClusters(s, env, samples, gi, SeededClusterCount(samples(st.cursor)), st.(cursor := st.cursor + 1))
  }

  /** The group loop of GeneratePropsDataAsync from group gi on. */
  function SeededGroups(s: Settings, env: Env, samples: nat -> real, gi: nat, st: Session): (r: Session)
    decreases |s.propGroups| - gi
  {
    if gi >= |s.propGroups| || st.faulted then st
    else SeededGroups(s, env, samples, gi + 1, SeededGroup(s, env, samples, gi, st))
  }

  /** A whole seeded pass, from cleared lists and a fresh generator. */
  function SeededRun(s: Settings, env: Env, samples: nat -> real): (r: Session) {
    SeededGroups(s, env, samples, 0, Session([], [], 0, false))
  }

  // ---------------------------------------------------------------- the interactive path

  /** PlaceSinglePropInCluster's ground position for the circle draw at k. */
  function EngineCandidate(env: Env, d: Draws, radius: real, centre: Vec3, k: nat): (p: Vec3) {
    env.ground(Around(centre, Scale2(d.circle(k), radius)))
  }

  /** PlaceSinglePropInCluster: one draw places the candidate; an accepted one takes three more,
      for the variant, the whole-degree rotation and the scale, in that order. A variant index
      outside the table (Random.Range(0, 0) of an empty one yields 0) makes the indexing throw
      before anything is instantiated. */
  function EngineItem(s: Settings, env: Env, d: Draws, gi: nat, centre: Vec3, st: Session): (r: Session)
    requires gi < |s.propGroups|
  {
    var g := s.propGroups[gi];
    var k := st.cursor;
    var ground := EngineCandidate(env, d, g.clusterRadius, centre, k);
    if !Admissible(s, env, st.placed, ground) then st.(cursor := k + 1)
    else
      var prefab := RangeInt(d.ints(k + 1), 0, g.prefabCount);
      if !(0 <= prefab < g.prefabCount) then st.(cursor := k + 2, faulted := true)
      else
        var rotation := RangeInt(d.ints(k + 2), 0, 360);
        var scale := RangeFloat(d.floats(k + 3), 0.8, 1.2);
        Session(st.placed + [ground], st.records + [PropData(ground, rotation as real, scale, prefab, gi)], k + 4, st.faulted)
  }

  /** `count` consecutive item attempts of one cluster; an exception ends the run. */
  function EngineItems(s: Settings, env: Env, d: Draws, gi: nat, centre: Vec3, count: int, st: Session): (r: Session)
    requires gi < |s.propGroups|
    decreases count
  {
    if count <= 0 || st.faulted then st
    else EngineItems(s, env, d, gi, centre, count - 1, EngineItem(s, env, d, gi, centre, st))
  }

  /** TryPlaceCluster's centre for the circle draw at k. */
  function EngineCentre(s: Settings, env: Env, d: Draws, k: nat): (p: Vec3) {
    env.ground(Plus2(CentreXZ(env), Scale2(d.circle(k), s.spawnRadius)))
  }

  /** TryPlaceCluster: one draw for the centre; a rejected centre ends the cluster, otherwise one
      draw for the item count and that many item attempts. */
  function EngineCluster(s: Settings, env: Env, d: Draws, gi: nat, st: Session): (r: Session)
    requires gi < |s.propGroups|
  {
    var k := st.cursor;
    var centre := EngineCentre(s, env, d, k);
    if CentreRejected(s, env, centre) then st.(cursor := k + 1)
    else EngineItems(s, env, d, gi, centre, EngineItemCount(d.ints(k + 1), s.propGroups[gi]), st.(cursor := k + 2))
  }

  function EngineClusters(s: Settings, env: Env, d: Draws, gi: nat, count: int, st: Session): (r: Session)
    requires gi < |s.propGroups|
    decreases count
  {
    if count <= 0 || st.faulted then st
    else EngineClusters(s, env, d, gi, count - 1, EngineCluster(s, env, d, gi, st))
  }

  /** PlacePropGroupAsync: one draw for the cluster count, then that many TryPlaceCluster calls. */
  function EngineGroup(s: Settings, env: Env, d: Draws, gi: nat, st: Session): (r: Session)
    requires gi < |s.propGroups|
  {
    EngineClusters(s, env, d, gi, EngineClusterCount(d.ints(st.cursor)), st.(cursor := st.cursor + 1))
  }

  /** PlacePropsAsync from group gi on: each group runs PlacePropGroupAsync. */
  function EngineGroups(s: Settings, env: Env, d: Draws, gi: nat, st: Session): (r: Session)
    decreases |s.propGroups| - gi
  {
    if gi >= |s.propGroups| || st.faulted then st
    else EngineGroups(s, env, d, gi + 1, EngineGroup(s, env, d, gi, st))
  }

  // ---------------------------------------------------------------- what every pass keeps

  /** Every accepted position passed the ground, water and slope checks. */
  predicate Grounded(s: Settings, env: Env, p: Vec3) {
    !IsSentinel(p) && p.y >= 0.0 && env.slope(p) <= s.maxSlopeAngle
  }

  /** A record InstantiateProp can resolve: its group exists and its variant index is in that table. */
  predicate Resolvable(groups: seq<PropGroup>, r: PropData) {
    0 <= r.groupIndex < |groups| && 0 <= r.prefabIndex < groups[r.groupIndex].prefabCount
  }

  /** The invariant of a pass that has processed groups up to `hi`: one record per placed position,
      in the same order; every position grounded and pairwise separated; every record resolvable,
      from a group at most `hi`, and the records ordered by group. */
  predicate Consistent(s: Settings, env: Env, placed: seq<Vec3>, records: seq<PropData>, hi: int) {
    |records| == |placed|
    && (forall i :: 0 <= i < |placed| ==> Recorded(s, env, placed[i], records[i], hi))
    && Separated(placed, s.minDistanceBetweenProps, env.distance)
    && GroupOrdered(records)
  }

  /** Record r stands for the grounded position p, from a group at most hi with a variant it has. */
  predicate Recorded(s: Settings, env: Env, p: Vec3, r: PropData, hi: int) {
    r.position == p && Grounded(s, env, p) && Resolvable(s.propGroups, r) && r.groupIndex <= hi
  }

  /** Records come ordered by group. */
  predicate GroupOrdered(rs: seq<PropData>) {
    forall i, j :: 0 <= i < j < |rs| ==> rs[i].groupIndex <= rs[j].groupIndex
  }

  /** Seeded records: rotation in [0, 360), scale in [0.8, 1.2). */
  predicate SeededShaped(rs: seq<PropData>) {
    forall i :: 0 <= i < |rs| ==> 0.0 <= rs[i].rotation < 360.0 && 0.8 <= rs[i].scale < 1.2
  }

  /** Interactive instances: a whole-degree rotation in [0, 360), scale in [0.8, 1.2]. */
  predicate EngineShaped(rs: seq<PropData>) {
    forall i :: 0 <= i < |rs| ==>
      0.0 <= rs[i].rotation < 360.0 && rs[i].rotation == rs[i].rotation.Floor as real && 0.8 <= rs[i].scale <= 1.2
  }

  lemma ConsistentRaise(s: Settings, env: Env, placed: seq<Vec3>, records: seq<PropData>, hi: int, hi': int)
    requires Consistent(s, env, placed, records, hi) && (hi <= hi' || hi' >= |s.propGroups| - 1)
    ensures Consistent(s, env, placed, records, hi')
  {
  }

  /** Appending an admissible position and a record for it from group gi >= hi keeps the invariant. */
  lemma ConsistentAppend(s: Settings, env: Env, st: Session, hi: int, ground: Vec3, r: PropData, k: nat)
    requires Consistent(s, env, st.placed, st.records, hi) && Admissible(s, env, st.placed, ground)
    requires r.position == ground && Resolvable(s.propGroups, r) && hi <= r.groupIndex
    ensures Consistent(s, env, st.placed + [ground], st.records + [r], r.groupIndex)
  {
    SeparatedAppend(st.placed, ground, s.minDistanceBetweenProps, env.distance);
  }

  /** A candidate is appended exactly when all four checks pass, and then to both lists with the same
      position; a rejected candidate leaves both lists as they were. */
  lemma SeededItemOutcome(s: Settings, env: Env, samples: nat -> real, gi: nat, centre: Vec3, st: Session)
    requires gi < |s.propGroups|
    ensures var ground := SeededCandidate(env, samples, s.propGroups[gi].clusterRadius, centre, st.cursor);
      var r := SeededItem(s, env, samples, gi, centre, st);
      (|r.placed| == |st.placed| + 1 <==>
        !IsSentinel(ground) && ground.y >= 0.0 && env.slope(ground) <= s.maxSlopeAngle
        && forall i :: 0 <= i < |st.placed| ==> env.distance(st.placed[i], ground) >= s.minDistanceBetweenProps)
      && (|r.placed| == |st.placed| + 1 ==>
        r.placed == st.placed + [ground] && |r.records| == |st.records| + 1
        && r.records[..|st.records|] == st.records && r.records[|st.records|].position == ground
        && r.cursor == st.cursor + 5)
      && (|r.placed| != |st.placed| + 1 ==> r.placed == st.placed && r.records == st.records && r.cursor == st.cursor + 2)
  {
  }

  /** A cluster whose centre is the sentinel or too steep is skipped whole: no item is attempted and
      only the two centre draws are consumed. */
  lemma SeededClusterSkipped(s: Settings, env: Env, samples: nat -> real, gi: nat, st: Session)
    requires gi < |s.propGroups| && CentreRejected(s, env, SeededCentre(s, env, samples, st.cursor))
    ensures SeededCluster(s, env, samples, gi, st) == st.(cursor := st.cursor + 2)
  {
  }

  lemma EngineClusterSkipped(s: Settings, env: Env, d: Draws, gi: nat, st: Session)
    requires gi < |s.propGroups| && CentreRejected(s, env, EngineCentre(s, env, d, st.cursor))
    ensures EngineCluster(s, env, d, gi, st) == st.(cursor := st.cursor + 1)
  {
  }

  /** One seeded item keeps the invariant and the record shape. */
  lemma SeededItemKeeps(s: Settings, env: Env, samples: nat -> real, gi: nat, centre: Vec3, st: Session, hi: int)
    requires gi < |s.propGroups| && hi <= gi && HalfOpenUnit(samples) && AllNonEmpty(s.propGroups)
    requires Consistent(s, env, st.placed, st.records, hi) && SeededShaped(st.records)
    ensures var r := SeededItem(s, env, samples, gi, centre, st);
      Consistent(s, env, r.placed, r.records, gi) && SeededShaped(r.records) && r.faulted == st.faulted
  {
    var g := s.propGroups[gi];
    var k := st.cursor;
    var ground := SeededCandidate(env, samples, g.clusterRadius, centre, k);
    if Admissible(s, env, st.placed, ground) {
      var u2, u3, u4 := samples(k + 2), samples(k + 3), samples(k + 4);
      assert 0.0 <= u2 < 1.0 && 0.0 <= u3 < 1.0 && 0.0 <= u4 < 1.0;
      var record := SeededRecord(ground, u2, u3, NextInt(u4, 0, g.prefabCount).value, gi);
      assert 0.0 <= record.rotation < 360.0 && 0.8 <= record.scale < 1.2;
      ConsistentAppend(s, env, st, hi, ground, record, k + 5);
      assert SeededItem(s, env, samples, gi, centre, st) == Session(st.placed + [ground], st.records + [record], k + 5, st.faulted);
    } else {
      ConsistentRaise(s, env, st.placed, st.records, hi, gi);
    }
  }

  lemma {:induction false} SeededItemsKeep(s: Settings, env: Env, samples: nat -> real, gi: nat, centre: Vec3, count: int, st: Session, hi: int)
    requires gi < |s.propGroups| && hi <= gi && HalfOpenUnit(samples) && AllNonEmpty(s.propGroups)
    requires Consistent(s, env, st.placed, st.records, hi) && SeededShaped(st.records)
    ensures var r := SeededItems(s, env, samples, gi, centre, count, st);
      Consistent(s, env, r.placed, r.records, gi) && SeededShaped(r.records) && r.faulted == st.faulted
    decreases count
  {
    if count <= 0 {
      assert SeededItems(s, env, samples, gi, centre, count, st) == st;
      ConsistentRaise(s, env, st.placed, st.records, hi, gi);
    } else {
      SeededItemKeeps(s, env, samples, gi, centre, st, hi);
      var next := SeededItem(s, env, samples, gi, centre, st);
      SeededItemsKeep(s, env, samples, gi, centre, count - 1, next, gi);
      assert SeededItems(s, env, samples, gi, centre, count, st) == SeededItems(s, env, samples, gi, centre, count - 1, next);
    }
  }

  lemma SeededClusterKeeps(s: Settings, env: Env, samples: nat -> real, gi: nat, st: Session, hi: int)
    requires gi < |s.propGroups| && hi <= gi && HalfOpenUnit(samples) && AllNonEmpty(s.propGroups)
    requires Consistent(s, env, st.placed, st.records, hi) && SeededShaped(st.records)
    ensures var r := SeededCluster(s, env, samples, gi, st);
      Consistent(s, env, r.placed, r.records, gi) && SeededShaped(r.records)
  {
    var k := st.cursor;
    var centre := SeededCentre(s, env, samples, k);
    ConsistentRaise(s, env, st.placed, st.records, hi, gi);
    if CentreRejected(s, env, centre) {
      assert SeededCluster(s, env, samples, gi, st) == st.(cursor := k + 2);
    } else {
      match SeededItemCount(samples(k + 2), s.propGroups[gi])
      case None =>
        assert SeededCluster(s, env, samples, gi, st) == st.(cursor := k + 2, faulted := true);
      case Some(count) =>
        SeededItemsKeep(s, env, samples, gi, centre, count, st.(cursor := k + 3), gi);
        assert SeededCluster(s, env, samples, gi, st) == SeededItems(s, env, samples, gi, centre, count, st.(cursor := k + 3));
    }
  }

  lemma {:induction false} SeededClustersKeep(s: Settings, env: Env, samples: nat -> real, gi: nat, count: int, st: Session, hi: int)
    requires gi < |s.propGroups| && hi <= gi && HalfOpenUnit(samples) && AllNonEmpty(s.propGroups)
    requires Consistent(s, env, st.placed, st.records, hi) && SeededShaped(st.records)
    ensures var r := SeededClusters(s, env, samples, gi, count, st);
      Consistent(s, env, r.placed, r.records, gi) && SeededShaped(r.records)
    decreases count
  {
    if count <= 0 || st.faulted {
      assert SeededClusters(s, env, samples, gi, count, st) == st;
      ConsistentRaise(s, env, st.placed, st.records, hi, gi);
    } else {
      SeededClusterKeeps(s, env, samples, gi, st, hi);
      var next := SeededCluster(s, env, samples, gi, st);
      SeededClustersKeep(s, env, samples, gi, count - 1, next, gi);
      assert SeededClusters(s, env, samples, gi, count, st) == SeededClusters(s, env, samples, gi, count - 1, next);
    }
  }

  lemma SeededGroupKeeps(s: Settings, env: Env, samples: nat -> real, gi: nat, st: Session)
    requires gi < |s.propGroups| && HalfOpenUnit(samples) && AllNonEmpty(s.propGroups)
    requires Consistent(s, env, st.placed, st.records, gi - 1) && SeededShaped(st.records)
    ensures var r := SeededGroup(s, env, samples, gi, st);
      Consistent(s, env, r.placed, r.records, gi) && SeededShaped(r.records)
  {
    var count := SeededClusterCount(samples(st.cursor));
    var st1 := st.(cursor := st.cursor + 1);
    assert st1.placed == st.placed && st1.records == st.records;
    SeededClustersKeep(s, env, samples, gi, count, st1, gi - 1);
  }

  lemma {:induction false} SeededGroupsKeep(s: Settings, env: Env, samples: nat -> real, gi: nat, st: Session)
    requires gi <= |s.propGroups| && HalfOpenUnit(samples) && AllNonEmpty(s.propGroups)
    requires Consistent(s, env, st.placed, st.records, gi - 1) && SeededShaped(st.records)
    ensures var r := SeededGroups(s, env, samples, gi, st);
      Consistent(s, env, r.placed, r.records, |s.propGroups| - 1) && SeededShaped(r.records)
    decreases |s.propGroups| - gi
  {
    if gi >= |s.propGroups| || st.faulted {
      assert SeededGroups(s, env, samples, gi, st) == st;
      ConsistentRaise(s, env, st.placed, st.records, gi - 1, |s.propGroups| - 1);
    } else {
      SeededGroupKeeps(s, env, samples, gi, st);
      var mid := SeededGroup(s, env, samples, gi, st);
      SeededGroupsKeep(s, env, samples, gi + 1, mid);
      var r := SeededGroups(s, env, samples, gi + 1, mid);
      assert SeededGroups(s, env, samples, gi, st) == r;
    }
  }

  /** The invariant of the whole seeded pass: every record sits on an admissible, grounded position,
      positions are pairwise at least minDistanceBetweenProps apart, records carry rotation in
      [0, 360), scale in [0.8, 1.2), a variant of their own group, and come out ordered by group. */
  lemma SeededRunConsistent(s: Settings, env: Env, samples: nat -> real)
    requires HalfOpenUnit(samples) && AllNonEmpty(s.propGroups)
    ensures var r := SeededRun(s, env, samples);
      Consistent(s, env, r.placed, r.records, |s.propGroups| - 1) && SeededShaped(r.records)
  {
    SeededGroupsKeep(s, env, samples, 0, Session([], [], 0, false));
  }

  // The seeded pass only throws when some group's range is inverted by more than one.

  lemma {:induction false} SeededItemsNoFault(s: Settings, env: Env, samples: nat -> real, gi: nat, centre: Vec3, count: int, st: Session)
    requires gi < |s.propGroups|
    ensures SeededItems(s, env, samples, gi, centre, count, st).faulted == st.faulted
    decreases count
  {
    if count > 0 {
      var next := SeededItem(s, env, samples, gi, centre, st);
      SeededItemsNoFault(s, env, samples, gi, centre, count - 1, next);
      assert SeededItems(s, env, samples, gi, centre, count, st) == SeededItems(s, env, samples, gi, centre, count - 1, next);
    }
  }

  lemma {:induction false} SeededClustersNoFault(s: Settings, env: Env, samples: nat -> real, gi: nat, count: int, st: Session)
    requires gi < |s.propGroups| && !st.faulted
    requires s.propGroups[gi].minPropsInCluster <= s.propGroups[gi].maxPropsInCluster + 1
    ensures !SeededClusters(s, env, samples, gi, count, st).faulted
    decreases count
  {
    if count > 0 {
      var k := st.cursor;
      var centre := SeededCentre(s, env, samples, k);
      if CentreRejected(s, env, centre) {
        assert SeededCluster(s, env, samples, gi, st) == st.(cursor := k + 2);
      } else {
        var n := SeededItemCount(samples(k + 2), s.propGroups[gi]).value;
        SeededItemsNoFault(s, env, samples, gi, centre, n, st.(cursor := k + 3));
        assert SeededCluster(s, env, samples, gi, st) == SeededItems(s, env, samples, gi, centre, n, st.(cursor := k + 3));
      }
      var next := SeededCluster(s, env, samples, gi, st);
      SeededClustersNoFault(s, env, samples, gi, count - 1, next);
      assert SeededClusters(s, env, samples, gi, count, st) == SeededClusters(s, env, samples, gi, count - 1, next);
    }
  }

  lemma {:induction false} SeededGroupsNoFault(s: Settings, env: Env, samples: nat -> real, gi: nat, st: Session)
    requires !st.faulted
    requires forall i :: 0 <= i < |s.propGroups| ==> s.propGroups[i].minPropsInCluster <= s.propGroups[i].maxPropsInCluster + 1
    ensures !SeededGroups(s, env, samples, gi, st).faulted
    decreases |s.propGroups| - gi
  {
    if gi < |s.propGroups| {
      var count := SeededClusterCount(samples(st.cursor));
      SeededClustersNoFault(s, env, samples, gi, count, st.(cursor := st.cursor + 1));
      var mid := SeededGroup(s, env, samples, gi, st);
      SeededGroupsNoFault(s, env, samples, gi + 1, mid);
      assert SeededGroups(s, env, samples, gi, st) == SeededGroups(s, env, samples, gi + 1, mid);
    }
  }

  /** When no group's item range is inverted by more than one, System.Random never throws. */
  lemma SeededRunNoFault(s: Settings, env: Env, samples: nat -> real)
    requires forall i :: 0 <= i < |s.propGroups| ==> s.propGroups[i].minPropsInCluster <= s.propGroups[i].maxPropsInCluster + 1
    ensures !SeededRun(s, env, samples).faulted
  {
    SeededGroupsNoFault(s, env, samples, 0, Session([], [], 0, false));
  }

  // The interactive pass keeps the same invariant.

  lemma EngineItemKeeps(s: Settings, env: Env, d: Draws, gi: nat, centre: Vec3, st: Session, hi: int)
    requires gi < |s.propGroups| && hi <= gi && ValidDraws(d) && AllNonEmpty(s.propGroups)
    requires Consistent(s, env, st.placed, st.records, hi) && EngineShaped(st.records) && !st.faulted
    ensures var r := EngineItem(s, env, d, gi, centre, st);
      Consistent(s, env, r.placed, r.records, gi) && EngineShaped(r.records) && !r.faulted
  {
    var g := s.propGroups[gi];
    var k := st.cursor;
    var ground := EngineCandidate(env, d, g.clusterRadius, centre, k);
    if Admissible(s, env, st.placed, ground) {
      assert 0.0 <= d.ints(k + 1) < 1.0 && 0.0 <= d.ints(k + 2) < 1.0 && 0.0 <= d.floats(k + 3) <= 1.0;
      assert 0 <= RangeInt(d.ints(k + 1), 0, g.prefabCount) < g.prefabCount;
      var rotation := RangeInt(d.ints(k + 2), 0, 360);
      var record := PropData(ground, rotation as real, RangeFloat(d.floats(k + 3), 0.8, 1.2), RangeInt(d.ints(k + 1), 0, g.prefabCount), gi);
      assert record.rotation.Floor == rotation;
      ConsistentAppend(s, env, st, hi, ground, record, k + 4);
      assert EngineItem(s, env, d, gi, centre, st) == Session(st.placed + [ground], st.records + [record], k + 4, st.faulted);
    } else {
      ConsistentRaise(s, env, st.placed, st.records, hi, gi);
    }
  }

  lemma {:induction false} EngineItemsKeep(s: Settings, env: Env, d: Draws, gi: nat, centre: Vec3, count: int, st: Session, hi: int)
    requires gi < |s.propGroups| && hi <= gi && ValidDraws(d) && AllNonEmpty(s.propGroups)
    requires Consistent(s, env, st.placed, st.records, hi) && EngineShaped(st.records) && !st.faulted
    ensures var r := EngineItems(s, env, d, gi, centre, count, st);
      Consistent(s, env, r.placed, r.records, gi) && EngineShaped(r.records) && !r.faulted
    decreases count
  {
    if count <= 0 {
      assert EngineItems(s, env, d, gi, centre, count, st) == st;
      ConsistentRaise(s, env, st.placed, st.records, hi, gi);
    } else {
      EngineItemKeeps(s, env, d, gi, centre, st, hi);
      var next := EngineItem(s, env, d, gi, centre, st);
      EngineItemsKeep(s, env, d, gi, centre, count - 1, next, gi);
      assert EngineItems(s, env, d, gi, centre, count, st) == EngineItems(s, env, d, gi, centre, count - 1, next);
    }
  }

  lemma EngineClusterKeeps(s: Settings, env: Env, d: Draws, gi: nat, st: Session, hi: int)
    requires gi < |s.propGroups| && hi <= gi && ValidDraws(d) && AllNonEmpty(s.propGroups)
    requires Consistent(s, env, st.placed, st.records, hi) && EngineShaped(st.records) && !st.faulted
    ensures var r := EngineCluster(s, env, d, gi, st);
      Consistent(s, env, r.placed, r.records, gi) && EngineShaped(r.records) && !r.faulted
  {
    var k := st.cursor;
    var centre := EngineCentre(s, env, d, k);
    ConsistentRaise(s, env, st.placed, st.records, hi, gi);
    if CentreRejected(s, env, centre) {
      assert EngineCluster(s, env, d, gi, st) == st.(cursor := k + 1);
    } else {
      var count := EngineItemCount(d.ints(k + 1), s.propGroups[gi]);
      EngineItemsKeep(s, env, d, gi, centre, count, st.(cursor := k + 2), gi);
      assert EngineCluster(s, env, d, gi, st) == EngineItems(s, env, d, gi, centre, count, st.(cursor := k + 2));
    }
  }

  lemma {:induction false} EngineClustersKeep(s: Settings, env: Env, d: Draws, gi: nat, count: int, st: Session, hi: int)
    requires gi < |s.propGroups| && hi <= gi && ValidDraws(d) && AllNonEmpty(s.propGroups)
    requires Consistent(s, env, st.placed, st.records, hi) && EngineShaped(st.records) && !st.faulted
    ensures var r := EngineClusters(s, env, d, gi, count, st);
      Consistent(s, env, r.placed, r.records, gi) && EngineShaped(r.records) && !r.faulted
    decreases count
  {
    if count <= 0 {
      assert EngineClusters(s, env, d, gi, count, st) == st;
      ConsistentRaise(s, env, st.placed, st.records, hi, gi);
    } else {
      EngineClusterKeeps(s, env, d, gi, st, hi);
      var next := EngineCluster(s, env, d, gi, st);
      EngineClustersKeep(s, env, d, gi, count - 1, next, gi);
      assert EngineClusters(s, env, d, gi, count, st) == EngineClusters(s, env, d, gi, count - 1, next);
    }
  }

  lemma EngineGroupKeeps(s: Settings, env: Env, d: Draws, gi: nat, st: Session)
    requires gi < |s.propGroups| && ValidDraws(d) && AllNonEmpty(s.propGroups)
    requires Consistent(s, env, st.placed, st.records, gi - 1) && EngineShaped(st.records) && !st.faulted
    ensures var r := EngineGroup(s, env, d, gi, st);
      Consistent(s, env, r.placed, r.records, gi) && EngineShaped(r.records) && !r.faulted
  {
    var count := EngineClusterCount(d.ints(st.cursor));
    var st1 := st.(cursor := st.cursor + 1);
    assert st1.placed == st.placed && st1.records == st.records;
    EngineClustersKeep(s, env, d, gi, count, st1, gi - 1);
  }

  lemma {:induction false} EngineGroupsKeep(s: Settings, env: Env, d: Draws, gi: nat, st: Session)
    requires gi <= |s.propGroups| && ValidDraws(d) && AllNonEmpty(s.propGroups)
    requires Consistent(s, env, st.placed, st.records, gi - 1) && EngineShaped(st.records) && !st.faulted
    ensures var r := EngineGroups(s, env, d, gi, st);
      Consistent(s, env, r.placed, r.records, |s.propGroups| - 1) && EngineShaped(r.records) && !r.faulted
    decreases |s.propGroups| - gi
  {
    if gi >= |s.propGroups| {
      assert EngineGroups(s, env, d, gi, st) == st;
      ConsistentRaise(s, env, st.placed, st.records, gi - 1, |s.propGroups| - 1);
    } else {
      EngineGroupKeeps(s, env, d, gi, st);
      var mid := EngineGroup(s, env, d, gi, st);
      EngineGroupsKeep(s, env, d, gi + 1, mid);
      var r := EngineGroups(s, env, d, gi + 1, mid);
      assert EngineGroups(s, env, d, gi, st) == r;
    }
  }

  /** The interactive pass from cleared lists: the same separation, grounding and resolvability
      invariant, with whole-degree rotations and scales in [0.8, 1.2]; with every variant table
      non-empty it never throws. */
  lemma EngineRunConsistent(s: Settings, env: Env, d: Draws, cursor: nat)
    requires ValidDraws(d) && AllNonEmpty(s.propGroups)
    ensures var r := EngineGroups(s, env, d, 0, Session([], [], cursor, false));
      Consistent(s, env, r.placed, r.records, |s.propGroups| - 1) && EngineShaped(r.records) && !r.faulted
  {
    EngineGroupsKeep(s, env, d, 0, Session([], [], cursor, false));
  }

  // The single steps the placer's methods take, spelled out.

  lemma SeededItemRejected(s: Settings, env: Env, samples: nat -> real, gi: nat, centre: Vec3, st: Session)
    requires gi < |s.propGroups|
    requires !Admissible(s, env, st.placed, SeededCandidate(env, samples, s.propGroups[gi].clusterRadius, centre, st.cursor))
    ensures SeededItem(s, env, samples, gi, centre, st) == st.(cursor := st.cursor + 2)
  {
  }

  lemma SeededItemAccepted(s: Settings, env: Env, samples: nat -> real, gi: nat, centre: Vec3, st: Session, ground: Vec3, r: PropData)
    requires gi < |s.propGroups|
    requires ground == SeededCandidate(env, samples, s.propGroups[gi].clusterRadius, centre, st.cursor)
    requires Admissible(s, env, st.placed, ground)
    requires r == SeededRecord(ground, samples(st.cursor + 2), samples(st.cursor + 3),
                               NextInt(samples(st.cursor + 4), 0, s.propGroups[gi].prefabCount).value, gi)
    ensures SeededItem(s, env, samples, gi, centre, st) == Session(st.placed + [ground], st.records + [r], st.cursor + 5, st.faulted)
  {
  }

  lemma SeededClusterFaults(s: Settings, env: Env, samples: nat -> real, gi: nat, st: Session)
    requires gi < |s.propGroups| && !CentreRejected(s, env, SeededCentre(s, env, samples, st.cursor))
    requires SeededItemCount(samples(st.cursor + 2), s.propGroups[gi]).None?
    ensures SeededCluster(s, env, samples, gi, st) == st.(cursor := st.cursor + 2, faulted := true)
  {
  }

  lemma SeededClusterRuns(s: Settings, env: Env, samples: nat -> real, gi: nat, st: Session, centre: Vec3, n: int)
    requires gi < |s.propGroups| && centre == SeededCentre(s, env, samples, st.cursor) && !CentreRejected(s, env, centre)
    requires SeededItemCount(samples(st.cursor + 2), s.propGroups[gi]) == Some(n)
    ensures SeededCluster(s, env, samples, gi, st) == SeededItems(s, env, samples, gi, centre, n, st.(cursor := st.cursor + 3))
  {
  }

  lemma SeededItemsStep(s: Settings, env: Env, samples: nat -> real, gi: nat, centre: Vec3, n: int, i: int, st: Session)
    requires gi < |s.propGroups| && i < n
    ensures SeededItems(s, env, samples, gi, centre, n - i, st)
         == SeededItems(s, env, samples, gi, centre, n - (i + 1), SeededItem(s, env, samples, gi, centre, st))
  {
  }

  lemma SeededItemsDone(s: Settings, env: Env, samples: nat -> real, gi: nat, centre: Vec3, n: int, st: Session)
    requires gi < |s.propGroups| && n <= 0
    ensures SeededItems(s, env, samples, gi, centre, n, st) == st
  {
  }

  lemma SeededClustersStep(s: Settings, env: Env, samples: nat -> real, gi: nat, n: int, i: int, st: Session)
    requires gi < |s.propGroups| && i < n && !st.faulted
    ensures SeededClusters(s, env, samples, gi, n - i, st)
         == SeededClusters(s, env, samples, gi, n - (i + 1), SeededCluster(s, env, samples, gi, st))
  {
  }

  lemma SeededClustersDone(s: Settings, env: Env, samples: nat -> real, gi: nat, n: int, st: Session)
    requires gi < |s.propGroups| && (n <= 0 || st.faulted)
    ensures SeededClusters(s, env, samples, gi, n, st) == st
  {
  }

  lemma SeededGroupStarts(s: Settings, env: Env, samples: nat -> real, gi: nat, st: Session, n: int)
    requires gi < |s.propGroups| && Some(n) == NextInt(samples(st.cursor), 5, 12)
    ensures SeededGroup(s, env, samples, gi, st) == SeededClusters(s, env, samples, gi, n, st.(cursor := st.cursor + 1))
  {
  }

  lemma SeededGroupsStep(s: Settings, env: Env, samples: nat -> real, gi: nat, st: Session)
    requires gi < |s.propGroups| && !st.faulted
    ensures SeededGroups(s, env, samples, gi, st) == SeededGroups(s, env, samples, gi + 1, SeededGroup(s, env, samples, gi, st))
  {
  }

  lemma SeededGroupsDone(s: Settings, env: Env, samples: nat -> real, gi: nat, st: Session)
    requires gi >= |s.propGroups| || st.faulted
    ensures SeededGroups(s, env, samples, gi, st) == st
  {
  }

  lemma EngineItemRejected(s: Settings, env: Env, d: Draws, gi: nat, centre: Vec3, st: Session)
    requires gi < |s.propGroups|
    requires !Admissible(s, env, st.placed, EngineCandidate(env, d, s.propGroups[gi].clusterRadius, centre, st.cursor))
    ensures EngineItem(s, env, d, gi, centre, st) == st.(cursor := st.cursor + 1)
  {
  }

  lemma EngineItemFaults(s: Settings, env: Env, d: Draws, gi: nat, centre: Vec3, st: Session)
    requires gi < |s.propGroups|
    requires Admissible(s, env, st.placed, EngineCandidate(env, d, s.propGroups[gi].clusterRadius, centre, st.cursor))
    requires !(0 <= RangeInt(d.ints(st.cursor + 1), 0, s.propGroups[gi].prefabCount) < s.propGroups[gi].prefabCount)
    ensures EngineItem(s, env, d, gi, centre, st) == st.(cursor := st.cursor + 2, faulted := true)
  {
  }

  lemma EngineItemAccepted(s: Settings, env: Env, d: Draws, gi: nat, centre: Vec3, st: Session, ground: Vec3, r: PropData)
    requires gi < |s.propGroups|
    requires ground == EngineCandidate(env, d, s.propGroups[gi].clusterRadius, centre, st.cursor)
    requires Admissible(s, env, st.placed, ground)
    requires 0 <= r.prefabIndex < s.propGroups[gi].prefabCount
    requires r == PropData(ground, RangeInt(d.ints(st.cursor + 2), 0, 360) as real, RangeFloat(d.floats(st.cursor + 3), 0.8, 1.2),
                           RangeInt(d.ints(st.cursor + 1), 0, s.propGroups[gi].prefabCount), gi)
    ensures EngineItem(s, env, d, gi, centre, st) == Session(st.placed + [ground], st.records + [r], st.cursor + 4, st.faulted)
  {
  }

  lemma EngineItemsStep(s: Settings, env: Env, d: Draws, gi: nat, centre: Vec3, n: int, i: int, st: Session)
    requires gi < |s.propGroups| && i < n && !st.faulted
    ensures EngineItems(s, env, d, gi, centre, n - i, st)
         == EngineItems(s, env, d, gi, centre, n - (i + 1), EngineItem(s, env, d, gi, centre, st))
  {
  }

  lemma EngineItemsDone(s: Settings, env: Env, d: Draws, gi: nat, centre: Vec3, n: int, st: Session)
    requires gi < |s.propGroups| && (n <= 0 || st.faulted)
    ensures EngineItems(s, env, d, gi, centre, n, st) == st
  {
  }

  lemma EngineClusterRuns(s: Settings, env: Env, d: Draws, gi: nat, st: Session, centre: Vec3, n: int)
    requires gi < |s.propGroups| && centre == EngineCentre(s, env, d, st.cursor) && !CentreRejected(s, env, centre)
    requires n == EngineItemCount(d.ints(st.cursor + 1), s.propGroups[gi])
    ensures EngineCluster(s, env, d, gi, st) == EngineItems(s, env, d, gi, centre, n, st.(cursor := st.cursor + 2))
  {
  }

  lemma EngineClustersStep(s: Settings, env: Env, d: Draws, gi: nat, n: int, i: int, st: Session)
    requires gi < |s.propGroups| && i < n && !st.faulted
    ensures EngineClusters(s, env, d, gi, n - i, st)
         == EngineClusters(s, env, d, gi, n - (i + 1), EngineCluster(s, env, d, gi, st))
  {
  }

  lemma EngineClustersDone(s: Settings, env: Env, d: Draws, gi: nat, n: int, st: Session)
    requires gi < |s.propGroups| && (n <= 0 || st.faulted)
    ensures EngineClusters(s, env, d, gi, n, st) == st
  {
  }

  lemma EngineGroupStarts(s: Settings, env: Env, d: Draws, gi: nat, st: Session, n: int)
    requires gi < |s.propGroups| && n == RoundToInt(RangeInt(d.ints(st.cursor), 5, 12) as real)
    ensures EngineGroup(s, env, d, gi, st) == EngineClusters(s, env, d, gi, n, st.(cursor := st.cursor + 1))
  {
  }

  lemma EngineGroupsStep(s: Settings, env: Env, d: Draws, gi: nat, st: Session)
    requires gi < |s.propGroups| && !st.faulted
    ensures EngineGroups(s, env, d, gi, st) == EngineGroups(s, env, d, gi + 1, EngineGroup(s, env, d, gi, st))
  {
  }

  lemma EngineGroupsDone(s: Settings, env: Env, d: Draws, gi: nat, st: Session)
    requires gi >= |s.propGroups| || st.faulted
    ensures EngineGroups(s, env, d, gi, st) == st
  {
  }

  // ---------------------------------------------------------------- batched instantiation

  /** How many records, from the front, InstantiateProp resolves before the first one whose group
      or variant index is out of range (where the indexing throws). */
  function ResolvablePrefix(groups: seq<PropGroup>, rs: seq<PropData>): (n: nat)
    ensures n <= |rs|
    ensures forall i :: 0 <= i < n ==> Resolvable(groups, rs[i])
    ensures n < |rs| ==> !Resolvable(groups, rs[n])
    decreases |rs|
  {
    if |rs| == 0 || !Resolvable(groups, rs[0]) then 0
    else
      var m := ResolvablePrefix(groups, rs[1..]);
      assert forall i :: 1 <= i < m + 1 ==> rs[i] == rs[1..][i - 1];
      1 + m
  }

  lemma AppendSlice(base: seq<PropData>, props: seq<PropData>, i: nat, j: nat)
    requires i <= j <= |props|
    ensures (base + props[..i]) + props[i..j] == base + props[..j]
  {
    assert props[..j] == props[..i] + props[i..j];
  }

  /** The counters of InstantiatePropsInBatches over `count` records whose first n resolve, with
      batch size b: i = batches * b is where the next batch starts; `processed` records are
      instantiated, and a throw happens at record n inside the batch starting at i. */
  ghost predicate BatchCounters(count: int, b: int, n: int, i: int, batches: nat, processed: int, thrown: bool) {
    i == Arith.BatchStart(batches, b) && (batches > 0 ==> Arith.BatchStart(batches - 1, b) < count && b > 0)
    && 0 <= processed <= n <= count
    && (!thrown ==> processed == if i < count then i else count)
    && (thrown ==> processed == n < count && i <= n < i + b)
  }

  /** One batch, from i to min(i + b, count), either completes or stops at record n. */
  lemma BatchAdvance(count: int, b: int, n: int, i: int, batches: nat, j: int, failed: bool)
    requires BatchCounters(count, b, n, i, batches, i, false) && i < count && b > 0
    requires i <= j <= (if i + b < count then i + b else count) && j <= n
    requires failed <==> j < (if i + b < count then i + b else count)
    requires failed ==> j == n
    ensures failed ==> BatchCounters(count, b, n, i, batches, j, true)
    ensures !failed ==> BatchCounters(count, b, n, i + b, batches + 1, j, false)
  {
  }

  /** When the loop ends, every record was processed in ceil(count / b) batches, or the throw at
      record n happened in batch n / b, which is not counted. */
  lemma BatchDone(count: int, b: int, n: int, i: int, batches: nat, processed: int, thrown: bool)
    requires BatchCounters(count, b, n, i, batches, processed, thrown) && (i >= count || thrown)
    ensures thrown ==> b > 0 && processed == n < count && batches == n / b
    ensures !thrown ==> processed == n == count && batches == if count == 0 then 0 else Arith.Batches(count, b)
  {
    Arith.BatchStartIsProduct(batches, b);
    if batches > 0 {
      Arith.BatchStartIsProduct(batches - 1, b);
    }
    if thrown {
      Arith.DivModOf(batches, n - i, b);
    } else if count > 0 {
      Arith.BatchesExact(count, b, batches);
    }
  }

  /** With every variant table non-empty, the records of a seeded pass all resolve, so batched
      instantiation places every one of them. */
  lemma SeededRunInstantiable(s: Settings, env: Env, samples: nat -> real)
    requires HalfOpenUnit(samples) && AllNonEmpty(s.propGroups)
    ensures var r := SeededRun(s, env, samples); ResolvablePrefix(s.propGroups, r.records) == |r.records|
  {
    SeededRunConsistent(s, env, samples);
  }

  // ---------------------------------------------------------------- the placer object

  /** A PropsPlacer. Its terrain is seen through env: built by TerrainEnv, env.ground and env.slope
      are the terrain's FindGroundPosition and CalculateSlopeAtPosition. The GameObjects of the
      interactive path (allProps) and the children instantiated under the "Props" container are
      represented by the PropData describing them. */
  class PropsPlacer {
    const settings: Settings
    const env: Env
    var placedPositions: seq<Vec3>
    var propsToInstantiate: seq<PropData>
    var allProps: seq<PropData>
    var hasContainer: bool
    var containerProps: seq<PropData>

    /** Awake: the placer finds its terrain; every list starts empty and there is no container yet. */
    constructor (settings: Settings, env: Env)
      ensures this.settings == settings && this.env == env
      ensures placedPositions == [] && propsToInstantiate == [] && allProps == []
      ensures !hasContainer && containerProps == []
    {
      this.settings := settings;
      this.env := env;
      placedPositions := [];
      propsToInstantiate := [];
      allProps := [];
      hasContainer := false;
      containerProps := [];
    }

    /** The seeded pass's state as the model threads it. */
    function SeededState(cursor: nat, thrown: bool): Session
      reads this
    {
      Session(placedPositions, propsToInstantiate, cursor, thrown)
    }

    /** The interactive pass's state as the model threads it. */
    function EngineState(cursor: nat, thrown: bool): Session
      reads this
    {
      Session(placedPositions, allProps, cursor, thrown)
    }

    /** The `foreach (var p in placedPositions)` distance scan with its early exit. */
    method TooClose(pos: Vec3) returns (tooClose: bool)
      ensures tooClose <==> !FarFromAll(placedPositions, pos, settings.minDistanceBetweenProps, env.distance)
    {
      var i := 0;
      while i < |placedPositions|
        invariant 0 <= i <= |placedPositions|
        invariant FarFromAll(placedPositions[..i], pos, settings.minDistanceBetweenProps, env.distance)
      {
        if env.distance(placedPositions[i], pos) < settings.minDistanceBetweenProps {
          return true;
        }
        i := i + 1;
      }
      assert placedPositions[..i] == placedPositions;
      return false;
    }

    /** IsValidPropPosition: not under water, not steeper than maxSlopeAngle, not within
        minDistanceBetweenProps of any placed position. */
    method IsValidPropPosition(pos: Vec3) returns (ok: bool)
      ensures ok <==> ValidPropPosition(settings, env, placedPositions, pos)
    {
      if pos.y < 0.0 {
        return false;
      }
      var slope := env.slope(pos);
      if slope > settings.maxSlopeAngle {
        return false;
      }
      var tooClose := TooClose(pos);
      return !tooClose;
    }

    /** GenerateSinglePropData: one item attempt of the seeded path. */
    method GenerateSinglePropData(gi: nat, centre: Vec3, rng: SeededRandom)
      requires gi < |settings.propGroups|
      modifies this, rng
      ensures SeededState(rng.cursor, false) == SeededItem(settings, env, rng.samples, gi, centre, old(SeededState(rng.cursor, false)))
      ensures allProps == old(allProps) && hasContainer == old(hasContainer) && containerProps == old(containerProps)
    {
      ghost var st := SeededState(rng.cursor, false);
      var g := settings.propGroups[gi];
      var angle := rng.NextDouble();
      var dist := rng.NextDouble();
      var offset := SeededOffset(env.polar, angle, dist, g.clusterRadius);
      var groundPos := env.ground(Around(centre, offset));
      assert groundPos == SeededCandidate(env, rng.samples, g.clusterRadius, centre, st.cursor);
      if IsSentinel(groundPos) || groundPos.y < 0.0 {
        SeededItemRejected(settings, env, rng.samples, gi, centre, st);
        return;
      }
      var slope := env.slope(groundPos);
      if slope > settings.maxSlopeAngle {
        SeededItemRejected(settings, env, rng.samples, gi, centre, st);
        return;
      }
      var tooClose := TooClose(groundPos);
      if tooClose {
        SeededItemRejected(settings, env, rng.samples, gi, centre, st);
        return;
      }
      var rotation := rng.NextDouble();
      var scale := rng.NextDouble();
      var prefabIndex := rng.Next(0, g.prefabCount);
      var record := SeededRecord(groundPos, rotation, scale, prefabIndex.value, gi);
      SeededItemAccepted(settings, env, rng.samples, gi, centre, st, groundPos, record);
      propsToInstantiate := propsToInstantiate + [record];
      placedPositions := placedPositions + [groundPos];
    }

    /** GenerateClusterData: one cluster of the seeded path; `thrown` reports the exception
        seedRandom.Next(min, max + 1) raises when min > max + 1. */
    method GenerateClusterData(gi: nat, rng: SeededRandom) returns (thrown: bool)
      requires gi < |settings.propGroups|
      modifies this, rng
      ensures SeededState(rng.cursor, thrown) == SeededCluster(settings, env, rng.samples, gi, old(SeededState(rng.cursor, false)))
      ensures allProps == old(allProps) && hasContainer == old(hasContainer) && containerProps == old(containerProps)
    {
      ghost var st := SeededState(rng.cursor, false);
      var angle := rng.NextDouble();
      var dist := rng.NextDouble();
      var randomDir := SeededOffset(env.polar, angle, dist, settings.spawnRadius);
      assert randomDir == SeededOffset(env.polar, rng.samples(st.cursor), rng.samples(st.cursor + 1), settings.spawnRadius);
      var clusterCenter := env.ground(Plus2(CentreXZ(env), randomDir));
      assert clusterCenter == SeededCentre(settings, env, rng.samples, st.cursor);
      if IsSentinel(clusterCenter) {
        SeededClusterSkipped(settings, env, rng.samples, gi, st);
        assert SeededState(rng.cursor, false) == st.(cursor := st.cursor + 2);
        return false;
      }
      var slope := env.slope(clusterCenter);
      if slope > settings.maxSlopeAngle {
        SeededClusterSkipped(settings, env, rng.samples, gi, st);
        assert SeededState(rng.cursor, false) == st.(cursor := st.cursor + 2);
        return false;
      }
      var g := settings.propGroups[gi];
      var count := rng.Next(g.minPropsInCluster, g.maxPropsInCluster + 1);
      if count.None? {
        SeededClusterFaults(settings, env, rng.samples, gi, st);
        assert SeededState(rng.cursor, true) == st.(cursor := st.cursor + 2, faulted := true);
        return true;
      }
      SeededClusterRuns(settings, env, rng.samples, gi, st, clusterCenter, count.value);
      assert SeededState(rng.cursor, false) == st.(cursor := st.cursor + 3);
      GenerateClusterItems(gi, clusterCenter, count.value, rng);
      return false;
    }

    /** The `for (int i = 0; i < propCount; i++)` item loop of GenerateClusterData. */
    method GenerateClusterItems(gi: nat, clusterCenter: Vec3, n: int, rng: SeededRandom)
      requires gi < |settings.propGroups|
      modifies this, rng
      ensures SeededState(rng.cursor, false) == SeededItems(settings, env, rng.samples, gi, clusterCenter, n, old(SeededState(rng.cursor, false)))
      ensures allProps == old(allProps) && hasContainer == old(hasContainer) && containerProps == old(containerProps)
    {
      ghost var target := SeededItems(settings, env, rng.samples, gi, clusterCenter, n, SeededState(rng.cursor, false));
      var i := 0;
      while i < n
        invariant SeededItems(settings, env, rng.samples, gi, clusterCenter, n - i, SeededState(rng.cursor, false)) == target
        invariant allProps == old(allProps) && hasContainer == old(hasContainer) && containerProps == old(containerProps)
        decreases n - i
      {
        SeededItemsStep(settings, env, rng.samples, gi, clusterCenter, n, i, SeededState(rng.cursor, false));
        GenerateSinglePropData(gi, clusterCenter, rng);
        i := i + 1;
      }
      SeededItemsDone(settings, env, rng.samples, gi, clusterCenter, n - i, SeededState(rng.cursor, false));
    }

    /** GeneratePropsDataAsync: with no groups, a warning and nothing else; otherwise both lists
        are cleared and every group, in order, draws its cluster count and generates that many
        clusters from one System.Random whose samples are `samples`. `thrown` reports the
        exception that ends the run early. */
    method GeneratePropsDataAsync(samples: nat -> real) returns (thrown: bool)
      modifies this
      ensures |settings.propGroups| == 0 ==>
        placedPositions == old(placedPositions) && propsToInstantiate == old(propsToInstantiate) && !thrown
      ensures |settings.propGroups| > 0 ==> var r := SeededRun(settings, env, samples);
        placedPositions == r.placed && propsToInstantiate == r.records && thrown == r.faulted
      ensures allProps == old(allProps) && hasContainer == old(hasContainer) && containerProps == old(containerProps)
    {
      if |settings.propGroups| == 0 {
        return false;
      }
      propsToInstantiate := [];
      placedPositions := [];
      var rng := new SeededRandom(samples);
      assert SeededState(rng.cursor, false) == Session([], [], 0, false);
      thrown := GenerateGroups(rng);
    }

    /** The `for (int groupIdx = 0; ...)` group loop of GeneratePropsDataAsync. */
    method GenerateGroups(rng: SeededRandom) returns (thrown: bool)
      modifies this, rng
      ensures SeededState(rng.cursor, thrown) == SeededGroups(settings, env, rng.samples, 0, old(SeededState(rng.cursor, false)))
      ensures allProps == old(allProps) && hasContainer == old(hasContainer) && containerProps == old(containerProps)
    {
      ghost var target := SeededGroups(settings, env, rng.samples, 0, SeededState(rng.cursor, false));
      thrown := false;
      var groupIdx := 0;
      while groupIdx < |settings.propGroups| && !thrown
        invariant SeededGroups(settings, env, rng.samples, groupIdx, SeededState(rng.cursor, thrown)) == target
        invariant allProps == old(allProps) && hasContainer == old(hasContainer) && containerProps == old(containerProps)
        decreases |settings.propGroups| - groupIdx
      {
        SeededGroupsStep(settings, env, rng.samples, groupIdx, SeededState(rng.cursor, false));
        thrown := GenerateGroupData(groupIdx, rng);
        groupIdx := groupIdx + 1;
      }
      SeededGroupsDone(settings, env, rng.samples, groupIdx, SeededState(rng.cursor, thrown));
    }

    /** One iteration of GeneratePropsDataAsync's group loop: seedRandom.Next(5, 12) clusters. */
    method GenerateGroupData(gi: nat, rng: SeededRandom) returns (thrown: bool)
      requires gi < |settings.propGroups|
      modifies this, rng
      ensures SeededState(rng.cursor, thrown) == SeededGroup(settings, env, rng.samples, gi, old(SeededState(rng.cursor, false)))
      ensures allProps == old(allProps) && hasContainer == old(hasContainer) && containerProps == old(containerProps)
    {
      ghost var st := SeededState(rng.cursor, false);
      var clusterCount := rng.Next(5, 12);
      SeededGroupStarts(settings, env, rng.samples, gi, st, clusterCount.value);
      assert SeededState(rng.cursor, false) == st.(cursor := st.cursor + 1);
      thrown := GenerateGroupClusters(gi, clusterCount.value, rng);
    }

    /** The `for (int i = 0; i < clusterCount; i++)` cluster loop of GeneratePropsDataAsync. */
    method GenerateGroupClusters(gi: nat, n: int, rng: SeededRandom) returns (thrown: bool)
      requires gi < |settings.propGroups|
      modifies this, rng
      ensures SeededState(rng.cursor, thrown) == SeededClusters(settings, env, rng.samples, gi, n, old(SeededState(rng.cursor, false)))
      ensures allProps == old(allProps) && hasContainer == old(hasContainer) && containerProps == old(containerProps)
    {
      ghost var target := SeededClusters(settings, env, rng.samples, gi, n, SeededState(rng.cursor, false));
      thrown := false;
      var i := 0;
      while i < n && !thrown
        invariant SeededClusters(settings, env, rng.samples, gi, n - i, SeededState(rng.cursor, thrown)) == target
        invariant allProps == old(allProps) && hasContainer == old(hasContainer) && containerProps == old(containerProps)
        decreases n - i
      {
        SeededClustersStep(settings, env, rng.samples, gi, n, i, SeededState(rng.cursor, false));
        thrown := GenerateClusterData(gi, rng);
        i := i + 1;
      }
      SeededClustersDone(settings, env, rng.samples, gi, n - i, SeededState(rng.cursor, thrown));
    }

    /** PlaceProps: with no groups, a warning and nothing else; otherwise all three lists are
        cleared and PlacePropsAsync runs to completion on the engine's generator. */
    method PlaceProps(rng: EngineRandom) returns (thrown: bool)
      modifies this, rng
      ensures |settings.propGroups| == 0 ==>
        placedPositions == old(placedPositions) && allProps == old(allProps) && propsToInstantiate == old(propsToInstantiate)
        && rng.cursor == old(rng.cursor) && !thrown
      ensures |settings.propGroups| > 0 ==>
        EngineState(rng.cursor, thrown) == EngineGroups(settings, env, rng.draws, 0, Session([], [], old(rng.cursor), false))
        && propsToInstantiate == []
      ensures hasContainer == old(hasContainer) && containerProps == old(containerProps)
    {
      if |settings.propGroups| == 0 {
        return false;
      }
      placedPositions := [];
      propsToInstantiate := [];
      allProps := [];
      thrown := PlacePropsAsync(rng);
    }

    /** PlacePropsAsync: PlacePropGroupAsync for each group in order. */
    method PlacePropsAsync(rng: EngineRandom) returns (thrown: bool)
      modifies this, rng
      ensures EngineState(rng.cursor, thrown) == EngineGroups(settings, env, rng.draws, 0, old(EngineState(rng.cursor, false)))
      ensures propsToInstantiate == old(propsToInstantiate) && hasContainer == old(hasContainer) && containerProps == old(containerProps)
    {
      ghost var target := EngineGroups(settings, env, rng.draws, 0, EngineState(rng.cursor, false));
      thrown := false;
      var gi := 0;
      while gi < |settings.propGroups| && !thrown
        invariant EngineGroups(settings, env, rng.draws, gi, EngineState(rng.cursor, thrown)) == target
        invariant propsToInstantiate == old(propsToInstantiate) && hasContainer == old(hasContainer) && containerProps == old(containerProps)
        decreases |settings.propGroups| - gi
      {
        EngineGroupsStep(settings, env, rng.draws, gi, EngineState(rng.cursor, false));
        thrown := PlacePropGroupAsync(gi, rng);
        gi := gi + 1;
      }
      EngineGroupsDone(settings, env, rng.draws, gi, EngineState(rng.cursor, thrown));
    }

    /** PlacePropGroupAsync: Mathf.RoundToInt(Random.Range(5, 12)) TryPlaceCluster calls. */
    method PlacePropGroupAsync(gi: nat, rng: EngineRandom) returns (thrown: bool)
      requires gi < |settings.propGroups|
      modifies this, rng
      ensures EngineState(rng.cursor, thrown) == EngineGroup(settings, env, rng.draws, gi, old(EngineState(rng.cursor, false)))
      ensures propsToInstantiate == old(propsToInstantiate) && hasContainer == old(hasContainer) && containerProps == old(containerProps)
    {
      ghost var st := EngineState(rng.cursor, false);
      var drawn := rng.Range(5, 12);
      var clusterCount := RoundToInt(drawn as real);
      EngineGroupStarts(settings, env, rng.draws, gi, st, clusterCount);
      assert EngineState(rng.cursor, false) == st.(cursor := st.cursor + 1);
      ghost var target := EngineClusters(settings, env, rng.draws, gi, clusterCount, EngineState(rng.cursor, false));
      thrown := false;
      var i := 0;
      while i < clusterCount && !thrown
        invariant EngineClusters(settings, env, rng.draws, gi, clusterCount - i, EngineState(rng.cursor, thrown)) == target
        invariant propsToInstantiate == old(propsToInstantiate) && hasContainer == old(hasContainer) && containerProps == old(containerProps)
        decreases clusterCount - i
      {
        EngineClustersStep(settings, env, rng.draws, gi, clusterCount, i, EngineState(rng.cursor, false));
        thrown := TryPlaceCluster(gi, rng);
        i := i + 1;
      }
      EngineClustersDone(settings, env, rng.draws, gi, clusterCount - i, EngineState(rng.cursor, thrown));
    }

    /** TryPlaceCluster: one cluster of the interactive path. */
    method TryPlaceCluster(gi: nat, rng: EngineRandom) returns (thrown: bool)
      requires gi < |settings.propGroups|
      modifies this, rng
      ensures EngineState(rng.cursor, thrown) == EngineCluster(settings, env, rng.draws, gi, old(EngineState(rng.cursor, false)))
      ensures propsToInstantiate == old(propsToInstantiate) && hasContainer == old(hasContainer) && containerProps == old(containerProps)
    {
      ghost var st := EngineState(rng.cursor, false);
      var dir := rng.InsideUnitCircle();
      var randomDir := Scale2(dir, settings.spawnRadius);
      var clusterCenter := env.ground(Plus2(CentreXZ(env), randomDir));
      assert clusterCenter == EngineCentre(settings, env, rng.draws, st.cursor);
      if IsSentinel(clusterCenter) {
        EngineClusterSkipped(settings, env, rng.draws, gi, st);
        assert EngineState(rng.cursor, false) == st.(cursor := st.cursor + 1);
        return false;
      }
      var slope := env.slope(clusterCenter);
      if slope > settings.maxSlopeAngle {
        EngineClusterSkipped(settings, env, rng.draws, gi, st);
        assert EngineState(rng.cursor, false) == st.(cursor := st.cursor + 1);
        return false;
      }
      var g := settings.propGroups[gi];
      var count := rng.Range(g.minPropsInCluster, g.maxPropsInCluster);
      EngineClusterRuns(settings, env, rng.draws, gi, st, clusterCenter, count);
      assert EngineState(rng.cursor, false) == st.(cursor := st.cursor + 2);
      thrown := TryPlaceClusterItems(gi, clusterCenter, count, rng);
    }

    /** The `for (int i = 0; i < count; i++)` item loop of TryPlaceCluster. */
    method TryPlaceClusterItems(gi: nat, clusterCenter: Vec3, n: int, rng: EngineRandom) returns (thrown: bool)
      requires gi < |settings.propGroups|
      modifies this, rng
      ensures EngineState(rng.cursor, thrown) == EngineItems(settings, env, rng.draws, gi, clusterCenter, n, old(EngineState(rng.cursor, false)))
      ensures propsToInstantiate == old(propsToInstantiate) && hasContainer == old(hasContainer) && containerProps == old(containerProps)
    {
      ghost var target := EngineItems(settings, env, rng.draws, gi, clusterCenter, n, EngineState(rng.cursor, false));
      thrown := false;
      var i := 0;
      while i < n && !thrown
        invariant EngineItems(settings, env, rng.draws, gi, clusterCenter, n - i, EngineState(rng.cursor, thrown)) == target
        invariant propsToInstantiate == old(propsToInstantiate) && hasContainer == old(hasContainer) && containerProps == old(containerProps)
        decreases n - i
      {
        EngineItemsStep(settings, env, rng.draws, gi, clusterCenter, n, i, EngineState(rng.cursor, false));
        thrown := PlaceSinglePropInCluster(gi, clusterCenter, rng);
        i := i + 1;
      }
      EngineItemsDone(settings, env, rng.draws, gi, clusterCenter, n - i, EngineState(rng.cursor, thrown));
    }

    /** PlaceSinglePropInCluster: one item attempt of the interactive path; an accepted position
        becomes an instance whose PropData joins allProps. `thrown` reports an out-of-range
        variant index. */
    method PlaceSinglePropInCluster(gi: nat, centre: Vec3, rng: EngineRandom) returns (thrown: bool)
      requires gi < |settings.propGroups|
      modifies this, rng
      ensures EngineState(rng.cursor, thrown) == EngineItem(settings, env, rng.draws, gi, centre, old(EngineState(rng.cursor, false)))
      ensures propsToInstantiate == old(propsToInstantiate) && hasContainer == old(hasContainer) && containerProps == old(containerProps)
    {
      ghost var st := EngineState(rng.cursor, false);
      var g := settings.propGroups[gi];
      var dir := rng.InsideUnitCircle();
      var offset := Scale2(dir, g.clusterRadius);
      var groundPos := env.ground(Around(centre, offset));
      assert groundPos == EngineCandidate(env, rng.draws, g.clusterRadius, centre, st.cursor);
      if IsSentinel(groundPos) {
        EngineItemRejected(settings, env, rng.draws, gi, centre, st);
        return false;
      }
      var ok := IsValidPropPosition(groundPos);
      if !ok {
        EngineItemRejected(settings, env, rng.draws, gi, centre, st);
        return false;
      }
      var prefabIndex := rng.Range(0, g.prefabCount);
      if !(0 <= prefabIndex < g.prefabCount) {
        EngineItemFaults(settings, env, rng.draws, gi, centre, st);
        return true;
      }
      var rotation := rng.Range(0, 360);
      var scale := rng.RangeF(0.8, 1.2);
      var prop := PropData(groundPos, rotation as real, scale, prefabIndex, gi);
      EngineItemAccepted(settings, env, rng.draws, gi, centre, st, groundPos, prop);
      placedPositions := placedPositions + [groundPos];
      allProps := allProps + [prop];
      return false;
    }

    /** InstantiateProp: looks up the record's group and variant (an index out of range throws)
        and instantiates it under the container. */
    method InstantiateProp(r: PropData) returns (thrown: bool)
      requires hasContainer
      modifies this
      ensures thrown <==> !Resolvable(settings.propGroups, r)
      ensures containerProps == if thrown then old(containerProps) else old(containerProps) + [r]
      ensures placedPositions == old(placedPositions) && propsToInstantiate == old(propsToInstantiate)
      ensures allProps == old(allProps) && hasContainer
    {
      if !(0 <= r.groupIndex < |settings.propGroups|) {
        return true;
      }
      var g := settings.propGroups[r.groupIndex];
      if !(0 <= r.prefabIndex < g.prefabCount) {
        return true;
      }
      containerProps := containerProps + [r];
      return false;
    }

    /** InstantiatePropsInBatches run to completion: the "Props" container is created if missing,
        then propsToInstantiate is instantiated in order, propsPerFrame records per batch. Every
        resolvable record up to the first unresolvable one is instantiated; `thrown` reports that
        one, whose batch is then not counted. */
    method InstantiatePropsInBatches() returns (batchesProcessed: nat, propsProcessed: int, thrown: bool)
      requires settings.propsPerFrame > 0 || |propsToInstantiate| == 0
      modifies this
      ensures placedPositions == old(placedPositions) && propsToInstantiate == old(propsToInstantiate) && allProps == old(allProps)
      ensures hasContainer
      ensures var n := ResolvablePrefix(settings.propGroups, propsToInstantiate);
        containerProps == (if old(hasContainer) then old(containerProps) else []) + propsToInstantiate[..n]
        && propsProcessed == n && (thrown <==> n < |propsToInstantiate|)
      ensures !thrown ==>
        batchesProcessed == if |propsToInstantiate| == 0 then 0 else Arith.Batches(|propsToInstantiate|, settings.propsPerFrame)
      ensures thrown ==> batchesProcessed == propsProcessed / settings.propsPerFrame
    {
      if !hasContainer {
        hasContainer := true;
        containerProps := [];
      }
      ghost var base := containerProps;
      var props := propsToInstantiate;
      ghost var n := ResolvablePrefix(settings.propGroups, props);
      var count := |props|;
      var b := settings.propsPerFrame;
      batchesProcessed := 0;
      propsProcessed := 0;
      thrown := false;
      var i := 0;
      while i < count && !thrown
        invariant hasContainer && propsToInstantiate == props
        invariant placedPositions == old(placedPositions) && allProps == old(allProps)
        invariant BatchCounters(count, b, n, i, batchesProcessed, propsProcessed, thrown)
        invariant containerProps == base + props[..propsProcessed]
        decreases count - i, if thrown then 0 else 1
      {
        var batchEnd := if i + b < count then i + b else count;
        var failed;
        propsProcessed, failed := InstantiateBatch(props, i, batchEnd);
        AppendSlice(base, props, i, propsProcessed);
        BatchAdvance(count, b, n, i, batchesProcessed, propsProcessed, failed);
        if failed {
          thrown := true;
        } else {
          batchesProcessed := batchesProcessed + 1;
          i := i + b;
        }
      }
      BatchDone(count, b, n, i, batchesProcessed, propsProcessed, thrown);
      if !thrown {
        assert props[..propsProcessed] == props;
      }
    }

    /** One batch of InstantiatePropsInBatches, the `for (int j = i; j < batchEnd; j++)` loop over
        props[lo..hi]: records instantiated in order up to the first one that throws; `j` is how
        far it got. */
    method InstantiateBatch(props: seq<PropData>, lo: nat, hi: nat) returns (j: nat, failed: bool)
      requires lo <= hi <= |props| && hasContainer && lo <= ResolvablePrefix(settings.propGroups, props)
      modifies this
      ensures placedPositions == old(placedPositions) && propsToInstantiate == old(propsToInstantiate) && allProps == old(allProps)
      ensures hasContainer && lo <= j <= hi && j <= ResolvablePrefix(settings.propGroups, props)
      ensures containerProps == old(containerProps) + props[lo..j]
      ensures failed <==> j < hi
      ensures failed ==> j == ResolvablePrefix(settings.propGroups, props)
    {
      ghost var n := ResolvablePrefix(settings.propGroups, props);
      j := lo;
      while j < hi
        invariant hasContainer && propsToInstantiate == old(propsToInstantiate)
        invariant placedPositions == old(placedPositions) && allProps == old(allProps)
        invariant lo <= j <= hi && j <= n
        invariant containerProps == old(containerProps) + props[lo..j]
        decreases hi - j
      {
        failed := InstantiateProp(props[j]);
        if failed {
          return;
        }
        assert props[lo..j + 1] == props[lo..j] + [props[j]];
        j := j + 1;
      }
      failed := false;
    }
  }
}
