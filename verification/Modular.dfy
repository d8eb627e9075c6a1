/** Arithmetic of slot numbers in circular buffers. */
module Modular {

  lemma Product(n: nat, a: int, b: int)
    ensures a <= b ==> n * a <= n * b
  {
  }

  /** A remainder determines its number up to the quotient. */
  lemma Remainder(x: nat, n: nat, q: int, r: nat)
    requires 0 < n && r < n && x == n * q + r
    ensures x / n == q && x % n == r
  {
    var q' := x / n;
    assert x == n * q' + x % n;
    Product(n, q + 1, q');
    Product(n, q' + 1, q);
  }

  /** Two instances that share a slot of a buffer of n slots are equal or at least n apart. */
  lemma SameSlot(i: nat, j: nat, n: nat)
    requires 0 < n && i <= j && i % n == j % n
    ensures i == j || i + n <= j
  {
    var qi, qj := i / n, j / n;
    assert i == n * qi + i % n && j == n * qj + j % n;
    Product(n, qi + 1, qj);
    Product(n, qj, qi);
  }

  /** Instances less than n apart have slots of their own. */
  lemma SlotsApart(i: nat, j: nat, n: nat)
    requires 0 < n && i < j < i + n
    ensures i % n != j % n
  {
    if i % n == j % n {
      SameSlot(i, j, n);
    }
  }

  /** The slot of instance i + n is the slot of instance i. */
  lemma NextLap(i: nat, n: nat)
    requires 0 < n
    ensures (i + n) % n == i % n
  {
    assert i + n == n * (i / n + 1) + i % n;
    Remainder(i + n, n, i / n + 1, i % n);
  }

  /** Stepping an index round a ring of n slots is addition modulo n. */
  lemma StepIndex(i: nat, n: nat)
    requires 0 < n
    ensures (i + 1) % n == if i % n + 1 == n then 0 else i % n + 1
  {
    if i % n + 1 == n {
      assert i + 1 == n * (i / n + 1) + 0;
      Remainder(i + 1, n, i / n + 1, 0);
    } else {
      assert i + 1 == n * (i / n) + (i % n + 1);
      Remainder(i + 1, n, i / n, i % n + 1);
    }
  }
}
