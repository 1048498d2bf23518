/** Integer facts used by the index arithmetic of the terrain grid and by the batch loops. */
module Arith {

  lemma MulLeftMonotone(a: int, b: int, n: nat)
    requires a <= b
    ensures a * n <= b * n
  {
    assert b * n - a * n == (b - a) * n;
  }

  lemma {:induction false} MulAtLeast(k: nat, n: nat)
    requires k >= 1
    ensures k * n >= n
  {
    if k > 1 {
      MulAtLeast(k - 1, n);
      assert k * n == (k - 1) * n + n;
    }
  }

  /** Euclidean division is unique: q*n + r with 0 <= r < n divides back to q, remainder r. */
  lemma {:induction false} DivModOf(q: int, r: int, n: int)
    requires n > 0 && 0 <= r < n
    ensures (q * n + r) / n == q
    ensures (q * n + r) % n == r
  {
    var a := q * n + r;
    var q', r' := a / n, a % n;
    assert q' * n + r' == a;
    if q' > q {
      assert (q' - q) * n == q' * n - q * n;
      MulAtLeast(q' - q, n);
    } else if q' < q {
      assert (q - q') * n == q * n - q' * n;
      MulAtLeast(q - q', n);
    }
  }

  /** A cell index z*S + x of an S-by-S grid lies below S*S. */
  lemma CellBelowSquare(x: nat, z: nat, s: nat)
    requires x < s && z < s
    ensures z * s + x < s * s
  {
    MulLeftMonotone(z, s - 1, s);
    assert (s - 1) * s == s * s - s;
  }

  /** The number of batches a `for (i = 0; i < n; i += b)` loop runs: ceil(n / b), or 0. */
  function Batches(n: int, b: int): (r: nat)
    requires b > 0
  {
    if n <= 0 then 0 else (n + b - 1) / b
  }

  /** Where batch k starts in a `for (i = 0; ...; i += b)` loop: k additions of b. */
  function BatchStart(k: nat, b: int): int {
    if k == 0 then 0 else BatchStart(k - 1, b) + b
  }

  lemma {:induction false} BatchStartIsProduct(k: nat, b: int)
    ensures BatchStart(k, b) == k * b
  {
    if k > 0 {
      BatchStartIsProduct(k - 1, b);
      assert k * b == (k - 1) * b + b;
    }
  }

  /** k batches of size b are exactly enough for n items when (k-1)*b < n <= k*b. */
  lemma BatchesExact(n: int, b: int, k: nat)
    requires b > 0 && n > 0
    requires (k - 1) * b < n <= k * b
    ensures Batches(n, b) == k
  {
    var r := n + b - 1 - k * b;
    assert (k - 1) * b == k * b - b;
    assert 0 <= r < b;
    DivModOf(k, r, b);
    assert k * b + r == n + b - 1;
  }

  /** A `for (i = 0; i < n; i += b)` loop that stopped after k batches, with batch k-1 starting
      below n and batch k at or past it, ran exactly Batches(n, b) batches. */
  lemma BatchCountExact(n: int, b: int, k: nat)
    requires b > 0 && n > 0 && k > 0
    requires BatchStart(k - 1, b) < n <= BatchStart(k, b)
    ensures Batches(n, b) == k
  {
    BatchStartIsProduct(k - 1, b);
    BatchStartIsProduct(k, b);
    BatchesExact(n, b, k);
  }

  /** The counters of a `for (i = 0; i < n; i += b)` loop after k batches: i is where batch k
      starts, every batch so far started below n, and no batch runs when n <= 0. */
  ghost predicate BatchAt(n: int, b: int, i: int, k: nat) {
    i == BatchStart(k, b)
    && (k > 0 ==> b > 0 && BatchStart(k - 1, b) < n)
    && (n <= 0 ==> k == 0)
    && (b > 0 || n <= 0)
  }

  lemma BatchNext(n: int, b: int, i: int, k: nat)
    requires BatchAt(n, b, i, k) && i < n
    ensures BatchAt(n, b, i + b, k + 1)
  {
  }

  /** When the loop condition fails the loop has run Batches(n, b) batches (none when n <= 0). */
  lemma BatchEnd(n: int, b: int, i: int, k: nat)
    requires BatchAt(n, b, i, k) && i >= n
    ensures k == if n <= 0 then 0 else Batches(n, b)
  {
    if n > 0 {
      BatchCountExact(n, b, k);
    }
  }
}
