/** AnimalSpawner: spawns a fixed number of animals in batches, each at the first of twenty
    random ground points around the terrain centre that is dry, not too steep and free of props.
    Every choice draws from UnityEngine.Random; the spawn runs once per spawner. */
module Animals {
  import opened Geometry
  import opened Wrappers
  import opened Terrain
  import opened Random
  import Arith

  /** The inspector settings of an AnimalSpawner; the prefab table is represented by its length. */
  datatype SpawnSettings = SpawnSettings(prefabCount: nat, numberOfAnimals: int, spawnRadius: real, animalsPerFrame: int)

  /** What spawning reads but does not own: the terrain's size and its two queries,
      FindGroundPosition and CalculateSlopeAtPosition; the layer LayerMask.NameToLayer("Props")
      answers (negative when there is no such layer); and Physics.OverlapSphere, as whether a
      sphere (centre, radius) hits a collider on the given layer. */
  datatype World = World(terrainSize: nat, ground: Vec2 -> Vec3, slope: Vec3 -> real, propLayer: int, overlaps: (Vec3, real, int) -> bool)

  /** The ground and slope queries the spawner uses are those of the published terrain. */
  ghost predicate OnTerrain(w: World, t: TerrainView, distance: (Vec3, Vec3) -> real) {
    w.terrainSize == t.params.terrainSize
    && (forall xz :: w.ground(xz) == FindGroundPosition(t, xz))
    && (forall p :: w.slope(p) == SlopeAtPosition(t, distance, p))
  }

  /** The world a spawner on terrain t sees, given the layer lookup and the physics query. */
  function TerrainWorld(t: TerrainView, distance: (Vec3, Vec3) -> real, propLayer: int, overlaps: (Vec3, real, int) -> bool): (w: World)
    ensures OnTerrain(w, t, distance) && w.propLayer == propLayer && w.overlaps == overlaps
  {
    World(t.params.terrainSize, xz => FindGroundPosition(t, xz), p => SlopeAtPosition(t, distance, p), propLayer, overlaps)
  }

  /** One spawned animal: where it stands, which prefab it is, and its yaw in degrees. */
  datatype Animal = Animal(position: Vec3, prefabIndex: int, yaw: int)

  /** What a spawn run threads through its loops: the animals created so far, how many engine
      draws were consumed, and whether an exception ended the coroutine. */
  datatype Herd = Herd(animals: seq<Animal>, cursor: nat, faulted: bool)

  /** The attempts GetRandomSpawnPosition makes (a function, so that the recursive search over
      them is not unrolled on a literal). */
  function SpawnAttempts(): nat { 20 }
  const MaxSpawnSlope: real := 45.0
  const CheckRadius: real := 0.7

  /** The overlap probe's centre: half a unit above the candidate. */
  function ProbeCentre(p: Vec3): Vec3 {
    Vec3(p.x, p.y + 0.5, p.z)
  }

  // ---------------------------------------------------------------- the spawn rule

  /** IsValidSpawnPosition: not under water, not steeper than 45 degrees and, when the "Props"
      layer exists, no prop collider within 0.7 of the probe centre. */
  predicate ValidSpawnPosition(w: World, p: Vec3) {
    p.y >= 0.0 && w.slope(p) <= MaxSpawnSlope
    && (w.propLayer >= 0 ==> !w.overlaps(ProbeCentre(p), CheckRadius, w.propLayer))
  }

  /** The acceptance test of one search attempt: ground was found and the position is valid. */
  predicate Acceptable(w: World, p: Vec3) {
    !IsSentinel(p) && ValidSpawnPosition(w, p)
  }

  /** The planar centre (S/2, S/2) of the terrain. */
  function CentreXZ(w: World): Vec2 {
    var h := w.terrainSize as real / 2.0;
    Vec2(h, h)
  }

  /** The ground point of the search attempt that reads the circle draw at k. */
  function Candidate(s: SpawnSettings, w: World, d: Draws, k: nat): (p: Vec3) {
    w.ground(Plus2(CentreXZ(w), Scale2(d.circle(k), s.spawnRadius)))
  }

  /** The search over the attempts that read the circle draws j, j+1, ..., end-1: the draw of the
      first accepted attempt, or None when all of them are rejected. */
  function FirstAcceptable(s: SpawnSettings, w: World, d: Draws, j: nat, end: nat): (r: Option<nat>)
    ensures r.Some? ==> j <= r.value < end
    decreases end - j
  {
    if j >= end then None
    else if Acceptable(w, Candidate(s, w, d, j)) then Some(j)
    else FirstAcceptable(s, w, d, j + 1, end)
  }

  /** The search reports the first accepted attempt: the one it names is accepted and every
      attempt before it was rejected; None means every attempt was rejected. */
  lemma {:induction false} FirstAcceptableIsFirst(s: SpawnSettings, w: World, d: Draws, j: nat, end: nat)
    ensures var r := FirstAcceptable(s, w, d, j, end);
      (r.Some? ==> Acceptable(w, Candidate(s, w, d, r.value))
                   && forall i :: j <= i < r.value ==> !Acceptable(w, Candidate(s, w, d, i)))
      && (r.None? ==> forall i :: j <= i < end ==> !Acceptable(w, Candidate(s, w, d, i)))
    decreases end - j
  {
    if j < end && !Acceptable(w, Candidate(s, w, d, j)) {
      FirstAcceptableIsFirst(s, w, d, j + 1, end);
      assert FirstAcceptable(s, w, d, j, end) == FirstAcceptable(s, w, d, j + 1, end);
    }
  }

  /** Conversely, an accepted attempt with only rejected ones before it is what the search reports. */
  lemma FirstAcceptableIs(s: SpawnSettings, w: World, d: Draws, j: nat, end: nat, i: nat)
    requires j <= i < end && Acceptable(w, Candidate(s, w, d, i))
    requires forall t :: j <= t < i ==> !Acceptable(w, Candidate(s, w, d, t))
    ensures FirstAcceptable(s, w, d, j, end) == Some(i)
  {
    FirstAcceptableIsFirst(s, w, d, j, end);
  }

  /** The draw GetRandomSpawnPosition's search starting at draw k stops at, if any. */
  function Search(s: SpawnSettings, w: World, d: Draws, k: nat): (r: Option<nat>) {
    FirstAcceptable(s, w, d, k, k + SpawnAttempts())
  }

  /** The candidate the search stops at is acceptable. */
  lemma SearchAccepts(s: SpawnSettings, w: World, d: Draws, k: nat)
    ensures Search(s, w, d, k).Some? ==> Acceptable(w, Candidate(s, w, d, Search(s, w, d, k).value))
  {
    FirstAcceptableIsFirst(s, w, d, k, k + SpawnAttempts());
  }

  /** GetRandomSpawnPosition from draw k: the position it returns (Vector3.zero when every attempt
      is rejected) and the draw the next call starts at. */
  function SpawnSearch(s: SpawnSettings, w: World, d: Draws, k: nat): (r: (Vec3, nat)) {
    var r := Search(s, w, d, k);
    if r.None? then (Zero, k + SpawnAttempts()) else (Candidate(s, w, d, r.value), r.value + 1)
  }

  /** The search returns the sentinel exactly when all twenty attempts were rejected. */
  lemma SpawnSearchSentinel(s: SpawnSettings, w: World, d: Draws, k: nat)
    ensures IsSentinel(SpawnSearch(s, w, d, k).0) <==> Search(s, w, d, k).None?
  {
    SearchAccepts(s, w, d, k);
  }

  /** SpawnAnimal: when every attempt was rejected (the sentinel position, SpawnSearchSentinel)
      the call ends, otherwise the animal is created at the accepted candidate. */
  function SpawnStep(s: SpawnSettings, w: World, d: Draws, h: Herd): (r: Herd) {
    var r := Search(s, w, d, h.cursor);
    if r.None? then h.(cursor := h.cursor + SpawnAttempts())
    else SpawnFound(s, d, h, Candidate(s, w, d, r.value), r.value + 1)
  }

  /** The rest of SpawnAnimal once the search found p with c draws consumed: one draw for the
      prefab (an index outside the table throws) and one for the yaw. */
  function SpawnFound(s: SpawnSettings, d: Draws, h: Herd, p: Vec3, c: nat): (r: Herd) {
    var prefab := RangeInt(d.ints(c), 0, s.prefabCount);
    if !(0 <= prefab < s.prefabCount) then h.(cursor := c + 1, faulted := true)
    else h.(animals := h.animals + [Animal(p, prefab, RangeInt(d.ints(c + 1), 0, 360))], cursor := c + 2)
  }

  /** m consecutive SpawnAnimal calls; an exception ends the run. */
  function SpawnCalls(s: SpawnSettings, w: World, d: Draws, m: int, h: Herd): (r: Herd)
    decreases m, 1
  {
    if m <= 0 || h.faulted then h
    else SpawnNext(s, w, d, m, h)
  }

  /** The run from one more SpawnAnimal call on (kept as its own function, so that a run is
      unfolded one call at a time). */
  function SpawnNext(s: SpawnSettings, w: World, d: Draws, m: int, h: Herd): Herd
    requires m > 0
    decreases m, 0
  {
    SpawnCalls(s, w, d, m - 1, SpawnStep(s, w, d, h))
  }

  // ---------------------------------------------------------------- what every call keeps

  /** An animal as SpawnAnimal creates it: at an acceptable position, with a prefab of the table,
      and a yaw in [0, 360). */
  predicate WellSpawned(s: SpawnSettings, w: World, a: Animal) {
    Acceptable(w, a.position) && 0 <= a.prefabIndex < s.prefabCount && 0 <= a.yaw < 360
  }

  /** One SpawnAnimal call: it either creates nothing or appends exactly one well-spawned animal.
      It creates nothing exactly when every attempt was rejected or the prefab index threw, and it
      throws only when an attempt was accepted and the prefab table is empty. */
  lemma SpawnStepOutcome(s: SpawnSettings, w: World, d: Draws, h: Herd)
    requires ValidDraws(d) && !h.faulted
    ensures var r := SpawnStep(s, w, d, h);
      (r.animals == h.animals || (|r.animals| == |h.animals| + 1 && r.animals[..|h.animals|] == h.animals
        && WellSpawned(s, w, r.animals[|h.animals|])))
      && (r.faulted <==> Search(s, w, d, h.cursor).Some? && s.prefabCount == 0)
      && (|r.animals| == |h.animals| + 1 <==> Search(s, w, d, h.cursor).Some? && s.prefabCount > 0)
  {
    var f := Search(s, w, d, h.cursor);
    SearchAccepts(s, w, d, h.cursor);
    if f.Some? {
      var c := f.value + 1;
      assert 0.0 <= d.ints(c) < 1.0 && 0.0 <= d.ints(c + 1) < 1.0;
      var r := SpawnStep(s, w, d, h);
      if s.prefabCount > 0 {
        assert r.animals == h.animals + [Animal(Candidate(s, w, d, f.value), RangeInt(d.ints(c), 0, s.prefabCount), RangeInt(d.ints(c + 1), 0, 360))];
        assert r.animals[..|h.animals|] == h.animals;
      }
    }
  }

  /** A prefix of a prefix is a prefix, and the entries between the two prefixes are shared. */
  lemma PrefixOfPrefix<T>(a: seq<T>, b: seq<T>, c: seq<T>)
    requires |c| <= |b| <= |a| && a[..|b|] == b && b[..|c|] == c
    ensures a[..|c|] == c
    ensures forall i :: |c| <= i < |b| ==> a[i] == b[i]
  {
    assert forall i :: 0 <= i < |b| ==> a[i] == a[..|b|][i];
  }

  /** A whole run keeps the animals it started with, adds at most one per call, and every animal
      it adds is well spawned; with a non-empty prefab table it never throws. */
  lemma {:induction false} SpawnCallsKeep(s: SpawnSettings, w: World, d: Draws, m: int, h: Herd)
    requires ValidDraws(d) && !h.faulted
    ensures var r := SpawnCalls(s, w, d, m, h);
      |h.animals| <= |r.animals| <= |h.animals| + (if m > 0 then m else 0)
      && r.animals[..|h.animals|] == h.animals
      && (forall i :: |h.animals| <= i < |r.animals| ==> WellSpawned(s, w, r.animals[i]))
      && (s.prefabCount > 0 ==> !r.faulted)
    decreases m
  {
    if m > 0 {
      SpawnCallsStep(s, w, d, m, 0, h);
      var h' := SpawnStep(s, w, d, h);
      SpawnStepOutcome(s, w, d, h);
      if h'.faulted {
        SpawnCallsDone(s, w, d, m - 1, h');
      } else {
        SpawnCallsKeep(s, w, d, m - 1, h');
        var r := SpawnCalls(s, w, d, m - 1, h');
        PrefixOfPrefix(r.animals, h'.animals, h.animals);
      }
    }
  }

  // ---------------------------------------------------------------- steps the methods take

  lemma SpawnFoundFaults(s: SpawnSettings, d: Draws, h: Herd, p: Vec3, c: nat, prefab: int)
    requires prefab == RangeInt(d.ints(c), 0, s.prefabCount) && !(0 <= prefab < s.prefabCount)
    ensures SpawnFound(s, d, h, p, c) == h.(cursor := c + 1, faulted := true)
  {
  }

  lemma SpawnFoundSpawns(s: SpawnSettings, d: Draws, h: Herd, p: Vec3, c: nat, prefab: int, yaw: int)
    requires prefab == RangeInt(d.ints(c), 0, s.prefabCount) && 0 <= prefab < s.prefabCount
    requires yaw == RangeInt(d.ints(c + 1), 0, 360)
    ensures SpawnFound(s, d, h, p, c) == h.(animals := h.animals + [Animal(p, prefab, yaw)], cursor := c + 2)
  {
  }

  lemma SpawnCallsStep(s: SpawnSettings, w: World, d: Draws, n: int, j: int, h: Herd)
    requires j < n && !h.faulted
    ensures SpawnCalls(s, w, d, n - j, h) == SpawnCalls(s, w, d, n - (j + 1), SpawnStep(s, w, d, h))
  {
    assert SpawnCalls(s, w, d, n - j, h) == SpawnNext(s, w, d, n - j, h);
    assert SpawnNext(s, w, d, n - j, h) == SpawnCalls(s, w, d, n - j - 1, SpawnStep(s, w, d, h));
  }

  lemma SpawnCallsDone(s: SpawnSettings, w: World, d: Draws, m: int, h: Herd)
    requires m <= 0 || h.faulted
    ensures SpawnCalls(s, w, d, m, h) == h
  {
  }

  // ---------------------------------------------------------------- the spawner

  /** An AnimalSpawner on the world w. The animals instantiated under the "Animals" container are
      represented by the Animal records describing them. */
  class AnimalSpawner {
    const settings: SpawnSettings
    const world: World
    var animals: seq<Animal>
    var hasSpawned: bool
    var hasContainer: bool

    constructor (settings: SpawnSettings, world: World)
      ensures this.settings == settings && this.world == world
      ensures animals == [] && !hasSpawned && !hasContainer
    {
      this.settings := settings;
      this.world := world;
      animals := [];
      hasSpawned := false;
      hasContainer := false;
    }

    /** IsValidSpawnPosition. */
    method IsValidSpawnPosition(position: Vec3) returns (ok: bool)
      ensures ok <==> ValidSpawnPosition(world, position)
    {
      if position.y < 0.0 {
        return false;
      }
      var slope := world.slope(position);
      if slope > MaxSpawnSlope {
        return false;
      }
      var propLayer := world.propLayer;
      if propLayer >= 0 {
        var hits := world.overlaps(ProbeCentre(position), CheckRadius, propLayer);
        if hits {
          return false;
        }
      }
      return true;
    }

    /** GetRandomSpawnPosition: at most twenty attempts, the first acceptable ground point, and
        Vector3.zero when all twenty fail. */
    method GetRandomSpawnPosition(rng: EngineRandom) returns (position: Vec3)
      modifies rng
      ensures (position, rng.cursor) == SpawnSearch(settings, world, rng.draws, old(rng.cursor))
    {
      ghost var k := rng.cursor;
      ghost var end := k + SpawnAttempts();
      var i := 0;
      while i < SpawnAttempts()
        invariant 0 <= i <= SpawnAttempts() && rng.cursor == k + i
        invariant FirstAcceptable(settings, world, rng.draws, rng.cursor, end) == Search(settings, world, rng.draws, k)
      {
        var center := CentreXZ(world);
        var dir := rng.InsideUnitCircle();
        var randomDir := Scale2(dir, settings.spawnRadius);
        var spawnPosition := world.ground(Plus2(center, randomDir));
        assert spawnPosition == Candidate(settings, world, rng.draws, k + i);
        if !IsSentinel(spawnPosition) {
          var ok := IsValidSpawnPosition(spawnPosition);
          if ok {
            return spawnPosition;
          }
        }
        i := i + 1;
      }
      return Zero;
    }

    /** SpawnAnimal: `spawned` is its return value, `thrown` stands for the exception an empty
        prefab table raises. */
    method SpawnAnimal(rng: EngineRandom) returns (spawned: bool, thrown: bool)
      modifies this, rng
      ensures Herd(animals, rng.cursor, thrown) == SpawnStep(settings, world, rng.draws, Herd(old(animals), old(rng.cursor), false))
      ensures spawned ==> !thrown && |animals| == |old(animals)| + 1
      ensures !spawned ==> animals == old(animals)
      ensures hasSpawned == old(hasSpawned) && hasContainer == old(hasContainer)
    {
      ghost var k := rng.cursor;
      var spawnPosition := GetRandomSpawnPosition(rng);
      SpawnSearchSentinel(settings, world, rng.draws, k);
      if IsSentinel(spawnPosition) {
        return false, false;
      }
      spawned, thrown := CreateAnimal(spawnPosition, rng);
    }

    /** The rest of SpawnAnimal once a position was found: pick the prefab (indexing the table
        throws when the index is outside it), instantiate, and turn it to a random yaw. */
    method CreateAnimal(spawnPosition: Vec3, rng: EngineRandom) returns (spawned: bool, thrown: bool)
      modifies this, rng
      ensures Herd(animals, rng.cursor, thrown) == SpawnFound(settings, rng.draws, Herd(old(animals), old(rng.cursor), false), spawnPosition, old(rng.cursor))
      ensures spawned ==> !thrown && |animals| == |old(animals)| + 1
      ensures !spawned ==> animals == old(animals)
      ensures hasSpawned == old(hasSpawned) && hasContainer == old(hasContainer)
    {
      ghost var h := Herd(animals, rng.cursor, false);
      ghost var c := rng.cursor;
      var prefab := rng.Range(0, settings.prefabCount);
      if !(0 <= prefab < settings.prefabCount) {
        SpawnFoundFaults(settings, rng.draws, h, spawnPosition, c, prefab);
        return false, true;
      }
      var yaw := rng.Range(0, 360);
      SpawnFoundSpawns(settings, rng.draws, h, spawnPosition, c, prefab, yaw);
      animals := animals + [Animal(spawnPosition, prefab, yaw)];
      return true, false;
    }

    /** The inner `for (int j = i; j < batchEnd; j++)` loop of SpawnAnimalsRoutine, adding the
        successful calls to spawnedCount. */
    method SpawnBatch(i: int, batchEnd: int, spawnedCount: int, rng: EngineRandom, ghost target: Herd)
      returns (spawnedCount': int, thrown: bool)
      requires 0 <= i <= batchEnd <= settings.numberOfAnimals
      requires SpawnCalls(settings, world, rng.draws, settings.numberOfAnimals - i, Herd(animals, rng.cursor, false)) == target
      requires 0 <= spawnedCount <= i
      modifies this, rng
      ensures SpawnCalls(settings, world, rng.draws, settings.numberOfAnimals - batchEnd, Herd(animals, rng.cursor, thrown)) == target
      ensures spawnedCount' - spawnedCount == |animals| - |old(animals)| && 0 <= spawnedCount' <= batchEnd
      ensures hasSpawned == old(hasSpawned) && hasContainer == old(hasContainer)
    {
      ghost var n := settings.numberOfAnimals;
      spawnedCount' := spawnedCount;
      thrown := false;
      var j := i;
      while j < batchEnd && !thrown
        invariant i <= j <= batchEnd
        invariant SpawnCalls(settings, world, rng.draws, n - j, Herd(animals, rng.cursor, thrown)) == target
        invariant spawnedCount' - spawnedCount == |animals| - |old(animals)| && 0 <= spawnedCount' <= j
        invariant hasSpawned == old(hasSpawned) && hasContainer == old(hasContainer)
        decreases batchEnd - j
      {
        SpawnCallsStep(settings, world, rng.draws, n, j, Herd(animals, rng.cursor, false));
        var spawned;
        spawned, thrown := SpawnAnimal(rng);
        if spawned {
          spawnedCount' := spawnedCount' + 1;
        }
        j := j + 1;
      }
      if thrown {
        SpawnCallsDone(settings, world, rng.draws, n - j, Herd(animals, rng.cursor, true));
        SpawnCallsDone(settings, world, rng.draws, n - batchEnd, Herd(animals, rng.cursor, true));
      }
    }

    /** SpawnAnimalsRoutine after its two waits: make sure the container exists, then call
        SpawnAnimal numberOfAnimals times in batches of animalsPerFrame, counting the successes
        and the batches; hasSpawned is set only when the routine runs to its end. */
    method SpawnAnimalsRoutine(rng: EngineRandom) returns (spawnedCount: int, batchCount: nat, thrown: bool)
      requires settings.animalsPerFrame > 0 || settings.numberOfAnimals <= 0
      modifies this, rng
      ensures hasContainer
      ensures Herd(animals, rng.cursor, thrown) == SpawnCalls(settings, world, rng.draws, settings.numberOfAnimals, Herd(old(animals), old(rng.cursor), false))
      ensures spawnedCount == |animals| - |old(animals)|
      ensures 0 <= spawnedCount <= (if settings.numberOfAnimals > 0 then settings.numberOfAnimals else 0)
      ensures !thrown ==> batchCount == if settings.numberOfAnimals <= 0 then 0 else Arith.Batches(settings.numberOfAnimals, settings.animalsPerFrame)
      ensures hasSpawned == (old(hasSpawned) || !thrown)
    {
      if !hasContainer {
        hasContainer := true;
      }
      ghost var target := SpawnCalls(settings, world, rng.draws, settings.numberOfAnimals, Herd(animals, rng.cursor, false));
      var n := settings.numberOfAnimals;
      var b := settings.animalsPerFrame;
      spawnedCount := 0;
      batchCount := 0;
      thrown := false;
      var i := 0;
      if n <= 0 {
        SpawnCallsDone(settings, world, rng.draws, n, Herd(animals, rng.cursor, false));
        SpawnCallsDone(settings, world, rng.draws, 0, Herd(animals, rng.cursor, false));
      }
      while i < n && !thrown
        invariant Arith.BatchAt(n, b, i, batchCount)
        invariant i < n ==> SpawnCalls(settings, world, rng.draws, n - i, Herd(animals, rng.cursor, thrown)) == target
        invariant i >= n ==> SpawnCalls(settings, world, rng.draws, 0, Herd(animals, rng.cursor, thrown)) == target
        invariant spawnedCount == |animals| - |old(animals)| && 0 <= spawnedCount <= (if n > 0 then n else 0)
        invariant !thrown ==> spawnedCount <= i
        invariant hasContainer && hasSpawned == old(hasSpawned)
        decreases n - i, if thrown then 0 else 1
      {
        var batchEnd := if i + b < n then i + b else n;
        spawnedCount, thrown := SpawnBatch(i, batchEnd, spawnedCount, rng, target);
        if thrown {
          SpawnCallsDone(settings, world, rng.draws, n - batchEnd, Herd(animals, rng.cursor, true));
          SpawnCallsDone(settings, world, rng.draws, n - i, Herd(animals, rng.cursor, true));
        } else {
          Arith.BatchNext(n, b, i, batchCount);
          batchCount := batchCount + 1;
          i := i + b;
        }
      }
      if thrown {
        SpawnCallsDone(settings, world, rng.draws, if i < n then n - i else 0, Herd(animals, rng.cursor, true));
      } else {
        SpawnCallsDone(settings, world, rng.draws, 0, Herd(animals, rng.cursor, false));
        Arith.BatchEnd(n, b, i, batchCount);
        hasSpawned := true;
      }
    }

    /** SpawnAnimals: nothing happens once a routine has completed; otherwise the routine runs. */
    method SpawnAnimals(rng: EngineRandom) returns (thrown: bool)
      requires hasSpawned || settings.animalsPerFrame > 0 || settings.numberOfAnimals <= 0
      modifies this, rng
      ensures old(hasSpawned) ==>
                !thrown && hasSpawned && animals == old(animals) && rng.cursor == old(rng.cursor) && hasContainer == old(hasContainer)
      ensures !old(hasSpawned) ==>
                hasContainer && hasSpawned == !thrown
                && Herd(animals, rng.cursor, thrown) == SpawnCalls(settings, world, rng.draws, settings.numberOfAnimals, Herd(old(animals), old(rng.cursor), false))
    {
      if hasSpawned {
        return false;
      }
      var spawnedCount, batchCount;
      spawnedCount, batchCount, thrown := SpawnAnimalsRoutine(rng);
    }
  }
}
