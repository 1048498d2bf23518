/** The two random sources the placement and spawning code draws from, modelled as
    supplied streams of draws. System.Random (the seeded generator of the deterministic
    path) is a stream of samples in [0, 1); UnityEngine.Random (the engine's global
    generator of the interactive path and of the spawners) is a stream whose k-th draw
    is read as an integer sample in [0, 1), a float sample in [0, 1] or a planar point
    (the insideUnitCircle draw, on which the model places no bound), according to the call
    that consumes it. */
module Random {
  import opened Wrappers
  import opened Geometry

  /** Every sample lies in [0, 1), as System.Random.Sample() and the engine's integer draws do. */
  ghost predicate HalfOpenUnit(f: nat -> real) {
    forall k: nat :: 0.0 <= f(k) < 1.0
  }

  /** Every sample lies in [0, 1], as the engine's float draws (Random.value) do. */
  ghost predicate ClosedUnit(f: nat -> real) {
    forall k: nat :: 0.0 <= f(k) <= 1.0
  }

  predicate FloorWithin(u: real, n: nat) {
    0 <= (u * n as real).Floor && (n > 0 ==> (u * n as real).Floor < n)
  }

  /** floor(u * n) for a sample u in [0, 1) lands in [0, n). */
  lemma ScaledFloorBounds(u: real, n: nat)
    requires 0.0 <= u < 1.0
    ensures FloorWithin(u, n)
  {
    var m := u * n as real;
    assert 0.0 <= m;
    if n > 0 {
      assert m < n as real by {
        assert (1.0 - u) * n as real > 0.0;
      }
    }
  }

  /** System.Random.Next(lo, hi) given its sample u: lo + (int)(u * (hi - lo));
      an ArgumentOutOfRangeException (None) when lo > hi. */
  function NextInt(u: real, lo: int, hi: int): (r: Option<int>)
    ensures r.None? <==> lo > hi
    ensures 0.0 <= u < 1.0 && lo < hi ==> r.Some? && lo <= r.value < hi
    ensures 0.0 <= u < 1.0 && lo == hi ==> r == Some(lo)
  {
    if lo > hi then None
    else
      assert 0.0 <= u < 1.0 ==> FloorWithin(u, hi - lo) by {
        if 0.0 <= u < 1.0 { ScaledFloorBounds(u, hi - lo); }
      }
      Some(lo + (u * (hi - lo) as real).Floor)
  }

  /** UnityEngine.Random.Range(int min, int max) given its draw u: a value in [min, max);
      min itself when the bounds are equal; a value in (max, min] when min > max. */
  function RangeInt(u: real, lo: int, hi: int): (r: int)
    ensures 0.0 <= u < 1.0 && lo < hi ==> lo <= r < hi
    ensures lo == hi ==> r == lo
    ensures 0.0 <= u < 1.0 && lo > hi ==> hi < r <= lo
  {
    if lo < hi then
      assert 0.0 <= u < 1.0 ==> FloorWithin(u, hi - lo) by {
        if 0.0 <= u < 1.0 { ScaledFloorBounds(u, hi - lo); }
      }
      lo + (u * (hi - lo) as real).Floor
    else if lo > hi then
      assert 0.0 <= u < 1.0 ==> FloorWithin(u, lo - hi) by {
        if 0.0 <= u < 1.0 { ScaledFloorBounds(u, lo - hi); }
      }
      lo - (u * (lo - hi) as real).Floor
    else lo
  }

  /** UnityEngine.Random.Range(float min, float max) given its draw u: a value in [min, max]. */
  function RangeFloat(u: real, lo: real, hi: real): (r: real)
    ensures 0.0 <= u <= 1.0 && lo <= hi ==> lo <= r <= hi
  {
    var w := hi - lo;
    var r := lo + u * w;
    assert 0.0 <= u <= 1.0 && lo <= hi ==> lo <= r <= hi by {
      if 0.0 <= u <= 1.0 && lo <= hi {
        ScaleWithin(u, w);
      }
    }
    r
  }

  /** A fraction u in [0, 1] of a width w >= 0 lies in [0, w]. */
  lemma ScaleWithin(u: real, w: real)
    requires 0.0 <= u <= 1.0 && w >= 0.0
    ensures 0.0 <= u * w <= w
  {
    var rest := (1.0 - u) * w;
    assert rest >= 0.0;
    assert u * w == w - rest;
  }

  /** The engine's stream of draws; draw k is read through whichever oracle the call needs. */
  datatype Draws = Draws(ints: nat -> real, floats: nat -> real, circle: nat -> Vec2)

  ghost predicate ValidDraws(d: Draws) {
    HalfOpenUnit(d.ints) && ClosedUnit(d.floats)
  }

  /** A System.Random instance: the samples it will produce and how many it has produced. */
  class SeededRandom {
    const samples: nat -> real
    var cursor: nat

    constructor (samples: nat -> real)
      ensures this.samples == samples && cursor == 0
    {
      this.samples := samples;
      cursor := 0;
    }

    /** System.Random.NextDouble(). */
    method NextDouble() returns (u: real)
      modifies this
      ensures u == samples(old(cursor)) && cursor == old(cursor) + 1
    {
      u := samples(cursor);
      cursor := cursor + 1;
    }

    /** System.Random.Next(lo, hi); None stands for the exception it throws when lo > hi,
        which it raises before taking a sample. */
    method Next(lo: int, hi: int) returns (r: Option<int>)
      modifies this
      ensures r == NextInt(samples(old(cursor)), lo, hi)
      ensures cursor == if lo > hi then old(cursor) else old(cursor) + 1
    {
      if lo > hi {
        r := None;
      } else {
        r := NextInt(samples(cursor), lo, hi);
        cursor := cursor + 1;
      }
    }
  }

  /** The engine's global UnityEngine.Random state: the draws and how many were consumed. */
  class EngineRandom {
    const draws: Draws
    var cursor: nat

    constructor (draws: Draws)
      ensures this.draws == draws && cursor == 0
    {
      this.draws := draws;
      cursor := 0;
    }

    /** Random.Range(int, int). */
    method Range(lo: int, hi: int) returns (r: int)
      modifies this
      ensures r == RangeInt(draws.ints(old(cursor)), lo, hi) && cursor == old(cursor) + 1
    {
      r := RangeInt(draws.ints(cursor), lo, hi);
      cursor := cursor + 1;
    }

    /** Random.Range(float, float). */
    method RangeF(lo: real, hi: real) returns (r: real)
      modifies this
      ensures r == RangeFloat(draws.floats(old(cursor)), lo, hi) && cursor == old(cursor) + 1
    {
      r := RangeFloat(draws.floats(cursor), lo, hi);
      cursor := cursor + 1;
    }

    /** Random.insideUnitCircle. */
    method InsideUnitCircle() returns (p: Vec2)
      modifies this
      ensures p == draws.circle(old(cursor)) && cursor == old(cursor) + 1
    {
      p := draws.circle(cursor);
      cursor := cursor + 1;
    }
  }
}
