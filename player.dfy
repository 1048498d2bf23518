/** PlayerSpawner: a bounded search for a spawn point on gentle ground, with a fixed fallback
    above the centre of the terrain, and a guard that spawns the player only once. The engine's
    float draws (Random.Range(float, float)) come from the supplied stream of draws. */
module Player {
  import opened Geometry
  import opened Wrappers
  import opened Terrain
  import opened Random
  import Arith

  /** FindSafeSpawnPosition makes at most this many attempts. */
  function SafeAttempts(): nat { 50 }

  /** An attempt is accepted when the slope there is strictly below this many degrees. */
  const MaxPlayerSlope: real := 30.0

  /** The player is placed this far above the ground it was found on. */
  const SpawnLift: real := 2.0

  // ---------------------------------------------------------------- one attempt

  /** Random.Range(0.2 S, 0.8 S) given its draw: one sampled planar coordinate. */
  function SampleCoord(s: nat, u: real): (r: real) {
    RangeFloat(u, s as real * 0.2, s as real * 0.8)
  }

  /** A float draw in [0, 1] samples a coordinate of the central band [0.2 S, 0.8 S]. */
  lemma SampleInBand(s: nat, u: real)
    requires 0.0 <= u <= 1.0
    ensures s as real * 0.2 <= SampleCoord(s, u) <= s as real * 0.8
  {
  }

  /** The vertex index an attempt reads: both coordinates rounded, then clamped to [0, S]. */
  function AttemptIndex(s: nat, x: real, z: real): (vi: int) {
    ClampInt(RoundToInt(z), 0, s) * (s + 1) + ClampInt(RoundToInt(x), 0, s)
  }

  /** Whatever the sampled coordinates, the clamped index is a vertex of an S-by-S grid. */
  lemma AttemptIndexInRange(s: nat, x: real, z: real)
    ensures 0 <= AttemptIndex(s, x, z) < VertexCount(s)
  {
    var xi := ClampInt(RoundToInt(x), 0, s);
    var zi := ClampInt(RoundToInt(z), 0, s);
    Arith.CellBelowSquare(xi, zi, s + 1);
  }

  /** PlayerSpawner.CalculateSlopeAtVertex: 0 for an index outside the vertex array; otherwise
      the angle of that vertex's normal from the up vector, where a normals array too short to
      hold the index stands for the up vector itself (angle 0). None stands for the
      NullReferenceException of reading the normals of a missing mesh. */
  function VertexSlope(t: TerrainView, i: int): (r: Option<real>)
    ensures !(0 <= i < |t.vertices|) ==> r == Some(0.0)
    ensures 0 <= i < |t.vertices| && t.normalAngles.None? ==> r.None?
    ensures 0 <= i < |t.vertices| && t.normalAngles.Some? && i >= |t.normalAngles.value| ==> r == Some(0.0)
    ensures 0 <= i < |t.vertices| && t.normalAngles.Some? && i < |t.normalAngles.value| ==> r == Some(t.normalAngles.value[i])
  {
    if i < 0 || i >= |t.vertices| then Some(0.0)
    else if t.normalAngles.None? then None
    else if |t.normalAngles.value| > i then Some(t.normalAngles.value[i])
    else Some(0.0)
  }

  /** Inside the vertex array, with a mesh, this slope is the one the terrain's own slope query
      reads: the vertex's angle inside the normals, 0 past their end. */
  lemma VertexSlopeAgreesWithTerrain(t: TerrainView, i: int)
    requires t.normalAngles.Some? && 0 <= i < |t.vertices|
    ensures VertexSlope(t, i) == Some(SlopeAtVertex(t, i))
  {
  }

  /** What one attempt of the loop does: accept a position, move on, or throw. */
  datatype Attempt = Accept(position: Vec3) | Reject | Throw

  /** The attempt whose two float draws are c and c + 1: sample x and z, read the height and the
      slope at the clamped vertex, accept strictly below 30 degrees at (x, height + 2, z) with x
      and z as sampled (not rounded). Reading past the vertex array, or the normals of a missing
      mesh, throws. */
  function AttemptAt(t: TerrainView, d: Draws, c: nat): (a: Attempt) {
    var s := t.params.terrainSize;
    var x := SampleCoord(s, d.floats(c));
    var z := SampleCoord(s, d.floats(c + 1));
    var vi := AttemptIndex(s, x, z);
    if !(0 <= vi < |t.vertices|) then Throw
    else match VertexSlope(t, vi)
      case None => Throw
      case Some(slope) => if slope < MaxPlayerSlope then Accept(Vec3(x, t.vertices[vi].y + SpawnLift, z)) else Reject
  }

  /** An accepted attempt lies in the central band, is the sampled point lifted 2 units above the
      vertex it read, and that vertex's slope is below 30 degrees. */
  lemma AcceptedAttempt(t: TerrainView, d: Draws, c: nat)
    requires ValidDraws(d) && AttemptAt(t, d, c).Accept?
    ensures var p := AttemptAt(t, d, c).position;
      var s := t.params.terrainSize;
      var vi := AttemptIndex(s, p.x, p.z);
      s as real * 0.2 <= p.x <= s as real * 0.8 && s as real * 0.2 <= p.z <= s as real * 0.8
      && p.x == SampleCoord(s, d.floats(c)) && p.z == SampleCoord(s, d.floats(c + 1))
      && 0 <= vi < |t.vertices| && p.y == t.vertices[vi].y + SpawnLift
      && VertexSlope(t, vi).Some? && VertexSlope(t, vi).value < MaxPlayerSlope
  {
    var s := t.params.terrainSize;
    SampleInBand(s, d.floats(c));
    SampleInBand(s, d.floats(c + 1));
  }

  /** An attempt throws exactly when its vertex is missing from the array or the mesh is
      missing; so on a generated terrain with a mesh no attempt throws. */
  lemma AttemptThrows(t: TerrainView, d: Draws, c: nat)
    ensures var s := t.params.terrainSize;
      var vi := AttemptIndex(s, SampleCoord(s, d.floats(c)), SampleCoord(s, d.floats(c + 1)));
      AttemptAt(t, d, c).Throw? <==> vi >= |t.vertices| || t.normalAngles.None?
    ensures Generated(t) && t.normalAngles.Some? ==> !AttemptAt(t, d, c).Throw?
  {
    var s := t.params.terrainSize;
    AttemptIndexInRange(s, SampleCoord(s, d.floats(c)), SampleCoord(s, d.floats(c + 1)));
  }

  // ---------------------------------------------------------------- the search

  /** The fallback: above the centre of the terrain at the height multiplier plus 2. */
  function Fallback(t: TerrainView): (p: Vec3) {
    Vec3(t.params.terrainSize as real / 2.0, t.params.heightMultiplier + SpawnLift, t.params.terrainSize as real / 2.0)
  }

  /** Draw c' is where an attempt starts, for attempts starting at draw c. */
  predicate AttemptStart(c: nat, c': nat) {
    c <= c' && (c' - c) % 2 == 0
  }

  /** The attempt after the one at c starts at c + 2. */
  lemma AttemptStartNext(c: nat, c': nat)
    requires AttemptStart(c, c') && c' != c
    ensures AttemptStart(c + 2, c')
  {
    assert c' - (c + 2) == (c' - c) - 2;
  }

  /** An attempt start after the one at c + 2 is one after the attempt at c too. */
  lemma AttemptStartPrev(c: nat, c': nat)
    requires AttemptStart(c + 2, c')
    ensures AttemptStart(c, c')
  {
    assert c' - c == (c' - (c + 2)) + 2;
  }

  /** The first attempt, among those starting at draws c, c + 2, ... below end, that does not
      move on. */
  function FirstDecisive(t: TerrainView, d: Draws, c: nat, end: nat): (r: Option<nat>)
    ensures r.Some? ==> AttemptStart(c, r.value) && r.value < end
    decreases end - c
  {
    if c >= end then None
    else if !AttemptAt(t, d, c).Reject? then Some(c)
    else
      var r := FirstDecisive(t, d, c + 2, end);
      if r.None? then r else AttemptStartPrev(c, r.value); r
  }

  /** FirstDecisive finds a decisive attempt, and every attempt before it moved on; when it
      finds none, every attempt moved on. */
  lemma {:induction false} FirstDecisiveIsFirst(t: TerrainView, d: Draws, c: nat, end: nat)
    ensures FirstDecisive(t, d, c, end).Some? ==> !AttemptAt(t, d, FirstDecisive(t, d, c, end).value).Reject?
    ensures forall c': nat :: (AttemptStart(c, c') && c' < end
      && (FirstDecisive(t, d, c, end).Some? ==> c' < FirstDecisive(t, d, c, end).value)) ==> AttemptAt(t, d, c').Reject?
    decreases end - c
  {
    if c < end && AttemptAt(t, d, c).Reject? {
      FirstDecisiveIsFirst(t, d, c + 2, end);
      assert FirstDecisive(t, d, c, end) == FirstDecisive(t, d, c + 2, end);
      forall c': nat | AttemptStart(c, c') && c' < end && (FirstDecisive(t, d, c, end).Some? ==> c' < FirstDecisive(t, d, c, end).value)
        ensures AttemptAt(t, d, c').Reject?
      {
        if c' != c {
          AttemptStartNext(c, c');
        }
      }
    }
  }

  /** What FindSafeSpawnPosition ends with: the position it returns (Vector3.zero when it threw
      and returned nothing), the draw the next call starts at, and whether it threw. */
  datatype Pick = Pick(position: Vec3, cursor: nat, thrown: bool)

  /** FindSafeSpawnPosition from draw k: the first decisive attempt of fifty, or the fallback. */
  function SafeSearch(t: TerrainView, d: Draws, k: nat): (pick: Pick) {
    var end := k + 2 * SafeAttempts();
    var r := FirstDecisive(t, d, k, end);
    if r.None? then Pick(Fallback(t), end, false)
    else match AttemptAt(t, d, r.value)
      case Accept(p) => Pick(p, r.value + 2, false)
      case _ => Pick(Zero, r.value + 2, true)
  }

  /** When all fifty attempts move on, the search returns the fallback point, having consumed
      all its draws. */
  lemma SafeSearchFallback(t: TerrainView, d: Draws, k: nat)
    requires forall c': nat :: AttemptStart(k, c') && c' < k + 2 * SafeAttempts() ==> AttemptAt(t, d, c').Reject?
    ensures SafeSearch(t, d, k) == Pick(Fallback(t), k + 2 * SafeAttempts(), false)
  {
    FirstDecisiveIsFirst(t, d, k, k + 2 * SafeAttempts());
  }

  /** When attempt j is the first that does not move on, the search ends right after it: with
      the position it accepted, or thrown. */
  lemma SafeSearchDecided(t: TerrainView, d: Draws, k: nat, j: nat)
    requires AttemptStart(k, j) && j < k + 2 * SafeAttempts() && !AttemptAt(t, d, j).Reject?
    requires forall c': nat :: AttemptStart(k, c') && c' < j ==> AttemptAt(t, d, c').Reject?
    ensures AttemptAt(t, d, j).Accept? ==> SafeSearch(t, d, k) == Pick(AttemptAt(t, d, j).position, j + 2, false)
    ensures AttemptAt(t, d, j).Throw? ==> SafeSearch(t, d, k) == Pick(Zero, j + 2, true)
  {
    FirstDecisiveIsFirst(t, d, k, k + 2 * SafeAttempts());
  }

  /** The search throws only through an attempt that throws, so never on a generated terrain
      that has its mesh. */
  lemma SafeSearchNeverThrows(t: TerrainView, d: Draws, k: nat)
    requires Generated(t) && t.normalAngles.Some?
    ensures !SafeSearch(t, d, k).thrown
  {
    FirstDecisiveIsFirst(t, d, k, k + 2 * SafeAttempts());
    var f := FirstDecisive(t, d, k, k + 2 * SafeAttempts());
    if f.Some? {
      AttemptThrows(t, d, f.value);
    }
  }

  /** Whatever the search returns without throwing lies in the central band [0.2 S, 0.8 S] in x
      and z; it is the fallback, or a point 2 units above the vertex it read, whose slope is below
      30 degrees. */
  lemma SafeSearchAccepted(t: TerrainView, d: Draws, k: nat)
    requires ValidDraws(d) && !SafeSearch(t, d, k).thrown
    ensures var p := SafeSearch(t, d, k).position;
      var s := t.params.terrainSize;
      var vi := AttemptIndex(s, p.x, p.z);
      s as real * 0.2 <= p.x <= s as real * 0.8 && s as real * 0.2 <= p.z <= s as real * 0.8
      && (p == Fallback(t) || (0 <= vi < |t.vertices| && p.y == t.vertices[vi].y + SpawnLift
        && VertexSlope(t, vi).Some? && VertexSlope(t, vi).value < MaxPlayerSlope))
  {
    var f := FirstDecisive(t, d, k, k + 2 * SafeAttempts());
    if f.Some? && AttemptAt(t, d, f.value).Accept? {
      AcceptedAttempt(t, d, f.value);
    }
  }

  // ---------------------------------------------------------------- the component

  class PlayerSpawner {
    /** The terrain the player is placed on. */
    const terrain: TerrainView
    /** Whether a player prefab is assigned. */
    const hasPrefab: bool
    /** The spawned player, by the position it was instantiated at; None while it is null. */
    var spawnedPlayer: Option<Vec3>

    constructor (terrain: TerrainView, hasPrefab: bool)
      ensures this.terrain == terrain && this.hasPrefab == hasPrefab && spawnedPlayer.None?
    {
      this.terrain := terrain;
      this.hasPrefab := hasPrefab;
      spawnedPlayer := None;
    }

    /** One attempt of FindSafeSpawnPosition, consuming its two float draws. */
    method TryAttempt(rng: EngineRandom) returns (a: Attempt)
      modifies rng
      ensures a == AttemptAt(terrain, rng.draws, old(rng.cursor)) && rng.cursor == old(rng.cursor) + 2
    {
      var s := terrain.params.terrainSize;
      var x := rng.RangeF(s as real * 0.2, s as real * 0.8);
      var z := rng.RangeF(s as real * 0.2, s as real * 0.8);
      var xi := ClampInt(RoundToInt(x), 0, s);
      var zi := ClampInt(RoundToInt(z), 0, s);
      var vi := zi * (s + 1) + xi;
      if !(0 <= vi < |terrain.vertices|) {
        return Throw;
      }
      var height := terrain.vertices[vi].y;
      var slope := VertexSlope(terrain, vi);
      if slope.None? {
        return Throw;
      }
      if slope.value < MaxPlayerSlope {
        return Accept(Vec3(x, height + SpawnLift, z));
      }
      return Reject;
    }

    /** FindSafeSpawnPosition: up to fifty attempts, the first accepted one returned, else the
        fallback above the centre. */
    method FindSafeSpawnPosition(rng: EngineRandom) returns (position: Vec3, thrown: bool)
      modifies rng
      ensures Pick(position, rng.cursor, thrown) == SafeSearch(terrain, rng.draws, old(rng.cursor))
    {
      ghost var k := rng.cursor;
      ghost var end := k + 2 * SafeAttempts();
      var i := 0;
      while i < SafeAttempts()
        invariant 0 <= i <= SafeAttempts()
        invariant rng.cursor == k + 2 * i
        invariant FirstDecisive(terrain, rng.draws, rng.cursor, end) == FirstDecisive(terrain, rng.draws, k, end)
      {
        var a := TryAttempt(rng);
        if a.Accept? {
          return a.position, false;
        } else if a.Throw? {
          return Zero, true;
        }
        i := i + 1;
      }
      return Fallback(terrain), false;
    }

    /** SpawnPlayer: nothing without a prefab or once a player exists; otherwise the player is
        instantiated at the safe position (unless the search threw, which leaves it null). */
    method SpawnPlayer(rng: EngineRandom) returns (thrown: bool)
      modifies this, rng
      ensures !hasPrefab || old(spawnedPlayer).Some? ==>
        spawnedPlayer == old(spawnedPlayer) && rng.cursor == old(rng.cursor) && !thrown
      ensures hasPrefab && old(spawnedPlayer).None? ==>
        var r := SafeSearch(terrain, rng.draws, old(rng.cursor));
        rng.cursor == r.cursor && thrown == r.thrown
        && spawnedPlayer == (if r.thrown then None else Some(r.position))
    {
      if !hasPrefab {
        return false;
      }
      if spawnedPlayer.Some? {
        return false;
      }
      var spawnPos;
      spawnPos, thrown := FindSafeSpawnPosition(rng);
      if thrown {
        return;
      }
      spawnedPlayer := Some(spawnPos);
    }
  }
}
