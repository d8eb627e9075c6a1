/** The bounded queue of client values (and of free memory chunks) as a sequence. */
module DequeSpec {

  /** A queue element: the address of the data and its size. */
  datatype Elem<T> = Elem(data: T, size: nat)

  const MAX_QUEUE_SIZE_BYTES := 1024 * 1024 * 1024
  const UNSIGNED := 0x1_0000_0000

  function Total<T>(q: seq<Elem<T>>): nat {
    if q == [] then 0 else Total(q[..|q| - 1]) + q[|q| - 1].size
  }

  /** There is a free place, and the 32-bit byte count stays within its limit. */
  predicate Fits<T>(q: seq<Elem<T>>, max: nat, size: nat) {
    |q| < max && Total(q) % UNSIGNED + size <= MAX_QUEUE_SIZE_BYTES
  }

  function Append<T>(q: seq<Elem<T>>, max: nat, e: Elem<T>): seq<Elem<T>> {
    if Fits(q, max, e.size) then q + [e] else q
  }

  /** A full queue drops its last element to make place in front. */
  function Prepend<T>(q: seq<Elem<T>>, max: nat, e: Elem<T>): seq<Elem<T>> {
    [e] + if |q| == max && q != [] then q[..|q| - 1] else q
  }

  lemma {:induction false} TotalFront<T>(e: Elem<T>, q: seq<Elem<T>>)
    ensures Total([e] + q) == e.size + Total(q)
  {
    if q == [] {
      assert ([e] + q)[..0] == [];
    } else {
      TotalFront(e, q[..|q| - 1]);
      assert ([e] + q)[..|q|] == [e] + q[..|q| - 1];
    }
  }
}
