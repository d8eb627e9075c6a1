/** The bounded double-ended queue over a circular array. */
module Deques {
  import opened Modular
  import opened DequeSpec

  /** Index arithmetic of the array: one step over the end wraps to the beginning. */
  function Wrap(x: nat, n: nat): nat {
    if x < n then x else x - n
  }

  lemma WrapIsMod(x: nat, n: nat)
    requires 0 < n && x < 2 * n
    ensures Wrap(x, n) == x % n
  {
    Remainder(x, n, if x < n then 0 else 1, Wrap(x, n));
  }

  /** The n elements from index r on, round the array. */
  function Ring<T>(q: seq<Elem<T>>, r: nat, n: nat): (s: seq<Elem<T>>)
    requires r < |q| && n <= |q|
    ensures |s| == n && forall j :: 0 <= j < n ==> s[j] == q[Wrap(r + j, |q|)]
  {
    seq(n, j requires 0 <= j < n => q[Wrap(r + j, |q|)])
  }

  lemma RingAppend<T>(q: seq<Elem<T>>, r: nat, n: nat, e: Elem<T>)
    requires r < |q| && n < |q|
    ensures Ring(q[Wrap(r + n, |q|) := e], r, n + 1) == Ring(q, r, n) + [e]
  {
  }

  lemma RingPrepend<T>(q: seq<Elem<T>>, r: nat, n: nat, e: Elem<T>)
    requires r < |q| && n < |q|
    ensures var r' := if r == 0 then |q| - 1 else r - 1;
            Ring(q[r' := e], r', n + 1) == [e] + Ring(q, r, n)
  {
  }

  lemma RingPop<T>(q: seq<Elem<T>>, r: nat, n: nat)
    requires r < |q| && 0 < n <= |q|
    ensures Ring(q, Wrap(r + 1, |q|), n - 1) == Ring(q, r, n)[1..] && Ring(q, r, n)[0] == q[r]
  {
  }

  lemma RingDiscard<T>(q: seq<Elem<T>>, r: nat, n: nat, e: Elem<T>)
    requires r < |q| && 0 < n <= |q|
    ensures var w := Wrap(r + (n - 1), |q|);
            Ring(q[w := e], r, n - 1) == Ring(q, r, n)[..n - 1] && Ring(q, r, n)[n - 1] == q[w]
  {
  }

  // ----- the 32-bit byte count -----

  function AddSize(total: nat, size: nat): nat {
    (total + size) % UNSIGNED
  }

  function SubSize(total: nat, size: nat): nat {
    (total - size) % UNSIGNED
  }

  lemma AddMod(a: nat, b: nat)
    ensures AddSize(a % UNSIGNED, b) == (a + b) % UNSIGNED
  {
    assert (a % UNSIGNED + b) == a + b - UNSIGNED * (a / UNSIGNED);
    Shifted(a % UNSIGNED + b, a / UNSIGNED);
  }

  lemma SubMod(a: nat, b: nat)
    requires b <= a
    ensures SubSize(a % UNSIGNED, b) == (a - b) % UNSIGNED
  {
    Shifted(a % UNSIGNED - b, a / UNSIGNED);
  }

  lemma Shifted(x: int, k: nat)
    ensures (x + UNSIGNED * k) % UNSIGNED == x % UNSIGNED
  {
  }

  lemma TotalPop<T>(q: seq<Elem<T>>)
    requires q != []
    ensures Total(q[1..]) == Total(q) - q[0].size && Total(q) >= q[0].size
  {
    TotalFront(q[0], q[1..]);
    assert q == [q[0]] + q[1..];
  }

  lemma TotalAppend<T>(q: seq<Elem<T>>, e: Elem<T>)
    ensures Total(q + [e]) == Total(q) + e.size
  {
    assert (q + [e])[..|q|] == q;
  }

  lemma TotalLast<T>(q: seq<Elem<T>>)
    requires q != []
    ensures Total(q) == Total(q[..|q| - 1]) + q[|q| - 1].size
  {
  }

  class Deque<T(0)> {
    const queue: array<Elem<T>>
    var count: nat
    var size: nat
    var readIndex: nat
    var writeIndex: nat

    /** The write index is `count` places after the read index; `size` is the byte sum modulo 2^32. */
    ghost predicate Valid()
      reads this, queue
    {
      && readIndex < queue.Length && count <= queue.Length
      && writeIndex == Wrap(readIndex + count, queue.Length)
      && size == Total(Contents()) % UNSIGNED
    }

    ghost function Contents(): (s: seq<Elem<T>>)
      requires readIndex < queue.Length && count <= queue.Length
      reads this, queue
      ensures |s| == count
    {
      Ring(queue[..], readIndex, count)
    }

    constructor (max: nat)
      requires max > 0
      ensures Valid() && fresh(queue) && queue.Length == max && Contents() == []
    {
      queue := new Elem<T>[max];
      count, size, readIndex, writeIndex := 0, 0, 0, 0;
    }

    lemma WriteIndexIsMod()
      requires Valid()
      ensures writeIndex == (readIndex + count) % queue.Length
    {
      WrapIsMod(readIndex + count, queue.Length);
    }

    method Pop() returns (ok: bool, e: Elem<T>)
      requires Valid()
      modifies this
      ensures Valid() && (ok <==> old(Contents()) != [])
      ensures ok ==> e == old(Contents())[0] && Contents() == old(Contents())[1..]
      ensures !ok ==> Contents() == []
    {
      hide Total, Ring, SubSize;
      e := queue[readIndex];
      ok := count != 0;
      if ok {
        RingPop(queue[..], readIndex, count);
        TotalPop(Contents());
        SubMod(Total(Contents()), e.size);
        count := count - 1;
        size := SubSize(size, e.size);
        readIndex := readIndex + 1;
        if readIndex == queue.Length {
          readIndex := 0;
        }
      }
    }

    method Append(data: T, bytes: nat) returns (ok: bool)
      requires Valid()
      modifies this, queue
      ensures Valid() && (ok <==> Fits(old(Contents()), queue.Length, bytes))
      ensures Contents() == DequeSpec.Append(old(Contents()), queue.Length, Elem(data, bytes))
    {
      hide Total, Ring, AddSize;
      ok := false;
      if count == queue.Length || size + bytes > MAX_QUEUE_SIZE_BYTES {
        return;
      }
      RingAppend(queue[..], readIndex, count, Elem(data, bytes));
      TotalAppend(Contents(), Elem(data, bytes));
      AddMod(Total(Contents()), bytes);
      queue[writeIndex] := Elem(data, bytes);
      assert queue[..] == old(queue[..])[writeIndex := Elem(data, bytes)];
      count := count + 1;
      size := AddSize(size, bytes);
      writeIndex := writeIndex + 1;
      if writeIndex == queue.Length {
        writeIndex := 0;
      }
      ok := true;
    }

    /** A full queue loses its last element first. */
    method Prepend(data: T, bytes: nat) returns (discarded: bool)
      requires Valid()
      modifies this, queue
      ensures Valid() && (discarded <==> |old(Contents())| == queue.Length)
      ensures Contents() == DequeSpec.Prepend(old(Contents()), queue.Length, Elem(data, bytes))
    {
      discarded := count == queue.Length;
      if discarded {
        var ok := DiscardLast();
      }
      PushFront(data, bytes);
    }

    method PushFront(data: T, bytes: nat)
      requires Valid() && count < queue.Length
      modifies this, queue
      ensures Valid() && Contents() == [Elem(data, bytes)] + old(Contents())
    {
      hide Total, Ring, AddSize;
      RingPrepend(queue[..], readIndex, count, Elem(data, bytes));
      TotalFront(Elem(data, bytes), Contents());
      AddMod(Total(Contents()), bytes);
      if readIndex == 0 {
        readIndex := queue.Length - 1;
      } else {
        readIndex := readIndex - 1;
      }
      size := AddSize(size, bytes);
      count := count + 1;
      queue[readIndex] := Elem(data, bytes);
      assert queue[..] == old(queue[..])[readIndex := Elem(data, bytes)];
    }

    method DiscardLast() returns (ok: bool)
      requires Valid()
      modifies this, queue
      ensures Valid() && (ok <==> old(Contents()) != [])
      ensures ok ==> Contents() == old(Contents())[..old(count) - 1]
      ensures !ok ==> Contents() == []
    {
      hide Total, Ring, SubSize;
      ok := count != 0;
      if !ok {
        return;
      }
      if writeIndex == 0 {
        writeIndex := queue.Length - 1;
      } else {
        writeIndex := writeIndex - 1;
      }
      var e := queue[writeIndex];
      RingDiscard(queue[..], readIndex, count, e.(size := 0));
      TotalLast(Contents());
      SubMod(Total(Contents()), e.size);
      size := SubSize(size, e.size);
      count := count - 1;
      queue[writeIndex] := e.(size := 0);
      assert queue[..] == old(queue[..])[writeIndex := e.(size := 0)];
    }
  }
}
