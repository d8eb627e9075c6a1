/** A pool of equally sized chunks, kept in a bounded queue. */
module MemoryPools {
  import opened Modular
  import opened DequeSpec
  import opened Deques

  function ChunkAt(begin: nat, entrySize: nat, i: nat): nat {
    begin + i * entrySize
  }

  function Chunks(begin: nat, entrySize: nat, n: nat): set<nat> {
    set i | 0 <= i < n :: ChunkAt(begin, entrySize, i)
  }

  lemma ChunksDiffer(begin: nat, entrySize: nat, i: nat, j: nat)
    requires entrySize > 0 && i < j
    ensures ChunkAt(begin, entrySize, i) + entrySize <= ChunkAt(begin, entrySize, j)
  {
    Product(entrySize, i + 1, j);
    assert entrySize * (i + 1) == i * entrySize + entrySize;
  }

  function Addresses(q: seq<Elem<nat>>): set<nat> {
    set j | 0 <= j < |q| :: q[j].data
  }

  ghost predicate AllDifferent(q: seq<Elem<nat>>) {
    forall i, j :: 0 <= i < |q| && 0 <= j < |q| && i != j ==> q[i].data != q[j].data
  }

  lemma {:induction false} CountAddresses(q: seq<Elem<nat>>)
    requires AllDifferent(q)
    ensures |Addresses(q)| == |q|
  {
    if q != [] {
      var front := q[..|q| - 1];
      CountAddresses(front);
      assert Addresses(q) == Addresses(front) + {q[|q| - 1].data};
    }
  }

  lemma {:induction false} CountChunks(begin: nat, entrySize: nat, n: nat)
    requires entrySize > 0
    ensures |Chunks(begin, entrySize, n)| == n
  {
    if n > 0 {
      CountChunks(begin, entrySize, n - 1);
      var last := ChunkAt(begin, entrySize, n - 1);
      assert Chunks(begin, entrySize, n) == Chunks(begin, entrySize, n - 1) + {last};
      forall i | 0 <= i < n - 1
        ensures ChunkAt(begin, entrySize, i) != last
      {
        ChunksDiffer(begin, entrySize, i, n - 1);
      }
    }
  }

  /** The queue of all chunks in order, as filled at creation. */
  function Filled(begin: nat, entrySize: nat, n: nat): (q: seq<Elem<nat>>)
    ensures |q| == n
  {
    if n == 0 then [] else Filled(begin, entrySize, n - 1) + [Elem(ChunkAt(begin, entrySize, n - 1), entrySize)]
  }

  lemma {:induction false} FilledFacts(begin: nat, entrySize: nat, n: nat)
    requires entrySize > 0
    ensures Total(Filled(begin, entrySize, n)) == n * entrySize
    ensures forall j :: 0 <= j < n ==> Filled(begin, entrySize, n)[j] == Elem(ChunkAt(begin, entrySize, j), entrySize)
  {
    if n > 0 {
      FilledFacts(begin, entrySize, n - 1);
      assert Filled(begin, entrySize, n)[..n - 1] == Filled(begin, entrySize, n - 1);
      assert n * entrySize == (n - 1) * entrySize + entrySize;
    }
  }

  class MemoryPool {
    const tot: nat
    const entrySize: nat
    const begin: nat
    const chunks: Deque<nat>
    var cur: nat
    /** The chunks handed out and not returned. */
    ghost var outstanding: set<nat>

    /** Free and outstanding chunks partition the chunks of the pool; each free chunk is queued once. */
    ghost predicate Valid()
      reads this, chunks, chunks.queue
    {
      && chunks.Valid() && chunks.queue.Length == tot && tot > 0 && entrySize > 0
      && cur == chunks.count
      && Pooled(chunks.Contents(), outstanding, begin, entrySize, tot)
    }

    constructor (numEntries: nat, entrySize: nat, begin: nat)
      requires numEntries > 0 && entrySize > 0 && numEntries * entrySize <= MAX_QUEUE_SIZE_BYTES
      ensures Valid() && fresh(chunks) && fresh(chunks.queue)
      ensures tot == numEntries && this.entrySize == entrySize && this.begin == begin && outstanding == {}
    {
      hide Total, Filled, Fits, Append, Ring, Pooled;
      tot, cur, this.entrySize, this.begin, outstanding := numEntries, numEntries, entrySize, begin, {};
      var q := new Deque<nat>(numEntries);
      chunks := q;
      new;
      var i := 0;
      var nextChunk := begin;
      while i < numEntries
        modifies chunks, chunks.queue
        invariant i <= numEntries && chunks.Valid() && chunks.queue.Length == numEntries
        invariant fresh(chunks) && fresh(chunks.queue) && nextChunk == ChunkAt(begin, entrySize, i)
        invariant chunks.Contents() == Filled(begin, entrySize, i)
      {
        FillStep(begin, entrySize, i, numEntries);
        var ok := chunks.Append(nextChunk, entrySize);
        assert ok;
        nextChunk := nextChunk + entrySize;
        i := i + 1;
      }
      FilledPooled(begin, entrySize, numEntries);
    }

    /** A chunk that is not outstanding. */
    method Alloc() returns (chunk: nat)
      requires Valid() && cur > 0
      modifies this, chunks
      ensures Valid() && chunk !in old(outstanding) && outstanding == old(outstanding) + {chunk}
      ensures chunk in Chunks(begin, entrySize, tot) && cur == old(cur) - 1
    {
      PopPooled(chunks.Contents(), outstanding, begin, entrySize, tot);
      cur := cur - 1;
      var ok, e := chunks.Pop();
      chunk := e.data;
      outstanding := outstanding + {chunk};
    }

    /** Returning an outstanding chunk never takes the branch of the queue that drops an element. */
    method Free(chunk: nat)
      requires Valid() && chunk in outstanding
      modifies this, chunks, chunks.queue
      ensures Valid() && outstanding == old(outstanding) - {chunk}
      ensures chunks.Contents() == [Elem(chunk, entrySize)] + old(chunks.Contents()) && cur == old(cur) + 1
    {
      PushPooled(chunks.Contents(), outstanding, begin, entrySize, tot, chunk);
      cur := cur + 1;
      var discarded := chunks.Prepend(chunk, entrySize);
      assert !discarded;
      outstanding := outstanding - {chunk};
    }
  }

  ghost predicate Pooled(q: seq<Elem<nat>>, out: set<nat>, begin: nat, entrySize: nat, tot: nat) {
    && AllDifferent(q)
    && (forall j :: 0 <= j < |q| ==> q[j].size == entrySize)
    && Addresses(q) !! out && Addresses(q) + out == Chunks(begin, entrySize, tot)
  }

  /** Every append of the filling loop succeeds. */
  lemma FillStep(begin: nat, entrySize: nat, i: nat, n: nat)
    requires entrySize > 0 && i < n && n * entrySize <= MAX_QUEUE_SIZE_BYTES
    ensures Fits(Filled(begin, entrySize, i), n, entrySize)
    ensures Append(Filled(begin, entrySize, i), n, Elem(ChunkAt(begin, entrySize, i), entrySize)) == Filled(begin, entrySize, i + 1)
    ensures ChunkAt(begin, entrySize, i + 1) == ChunkAt(begin, entrySize, i) + entrySize
  {
    hide Total;
    FilledFacts(begin, entrySize, i);
    Product(entrySize, i + 1, n);
    assert entrySize * (i + 1) == i * entrySize + entrySize;
  }

  /** The filling loop gets through exactly when the whole pool is within the queue's byte limit. */
  lemma FillsIff(begin: nat, entrySize: nat, n: nat)
    requires entrySize > 0
    ensures (forall i :: 0 <= i < n ==> Fits(Filled(begin, entrySize, i), n, entrySize)) <==> n * entrySize <= MAX_QUEUE_SIZE_BYTES
  {
    hide Filled, Total;
    if n * entrySize <= MAX_QUEUE_SIZE_BYTES {
      forall i | 0 <= i < n
        ensures Fits(Filled(begin, entrySize, i), n, entrySize)
      {
        FillStep(begin, entrySize, i, n);
      }
    } else {
      var i := MAX_QUEUE_SIZE_BYTES / entrySize;
      Product(entrySize, n, i);
      LastFit(entrySize, i);
      FilledFacts(begin, entrySize, i);
      assert !Fits(Filled(begin, entrySize, i), n, entrySize);
    }
  }

  lemma LastFit(entrySize: nat, i: nat)
    requires entrySize > 0 && i == MAX_QUEUE_SIZE_BYTES / entrySize
    ensures i * entrySize <= MAX_QUEUE_SIZE_BYTES < i * entrySize + entrySize
  {
    assert MAX_QUEUE_SIZE_BYTES == entrySize * i + MAX_QUEUE_SIZE_BYTES % entrySize;
    assert entrySize * i == i * entrySize;
  }

  lemma FilledPooled(begin: nat, entrySize: nat, n: nat)
    requires entrySize > 0
    ensures Pooled(Filled(begin, entrySize, n), {}, begin, entrySize, n)
  {
    var q := Filled(begin, entrySize, n);
    FilledFacts(begin, entrySize, n);
    forall i, j | 0 <= i < n && 0 <= j < n && i != j
      ensures q[i].data != q[j].data
    {
      if i < j {
        ChunksDiffer(begin, entrySize, i, j);
      } else {
        ChunksDiffer(begin, entrySize, j, i);
      }
    }
    assert Addresses(q) == Chunks(begin, entrySize, n);
  }

  /** Free and outstanding chunks together are as many as the pool has. */
  lemma CountPooled(q: seq<Elem<nat>>, out: set<nat>, begin: nat, entrySize: nat, tot: nat)
    requires Pooled(q, out, begin, entrySize, tot) && entrySize > 0
    ensures |q| + |out| == tot
  {
    CountAddresses(q);
    CountChunks(begin, entrySize, tot);
  }

  lemma PopPooled(q: seq<Elem<nat>>, out: set<nat>, begin: nat, entrySize: nat, tot: nat)
    requires Pooled(q, out, begin, entrySize, tot) && q != []
    ensures q[0].data in Chunks(begin, entrySize, tot) && q[0].data !in out
    ensures Pooled(q[1..], out + {q[0].data}, begin, entrySize, tot)
  {
    assert q[0].data in Addresses(q);
    assert Addresses(q) == Addresses(q[1..]) + {q[0].data};
  }

  lemma PushPooled(q: seq<Elem<nat>>, out: set<nat>, begin: nat, entrySize: nat, tot: nat, chunk: nat)
    requires Pooled(q, out, begin, entrySize, tot) && chunk in out && entrySize > 0
    ensures |q| < tot && Pooled([Elem(chunk, entrySize)] + q, out - {chunk}, begin, entrySize, tot)
  {
    hide AllDifferent, Chunks, Addresses;
    CountPooled(q, out, begin, entrySize, tot);
    AddressesFront(Elem(chunk, entrySize), q);
    DifferentFront(Elem(chunk, entrySize), q);
    assert |out| > 0;
  }

  lemma DifferentFront(e: Elem<nat>, q: seq<Elem<nat>>)
    requires AllDifferent(q) && e.data !in Addresses(q)
    ensures AllDifferent([e] + q)
  {
    var q' := [e] + q;
    forall i, j | 0 <= i < |q'| && 0 <= j < |q'| && i != j
      ensures q'[i].data != q'[j].data
    {
      assert i > 0 ==> q'[i] == q[i - 1] && q[i - 1].data in Addresses(q);
      assert j > 0 ==> q'[j] == q[j - 1] && q[j - 1].data in Addresses(q);
    }
  }

  lemma AddressesFront(e: Elem<nat>, q: seq<Elem<nat>>)
    ensures Addresses([e] + q) == Addresses(q) + {e.data}
  {
    var q' := [e] + q;
    forall a | a in Addresses(q) + {e.data}
      ensures a in Addresses(q')
    {
      if a == e.data {
        assert q'[0].data == a;
      } else {
        var k :| 0 <= k < |q| && q[k].data == a;
        assert q'[k + 1].data == a;
      }
    }
  }
}
