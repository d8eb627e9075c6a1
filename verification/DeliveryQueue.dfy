/** The delivery queue as the learner runs it: two circular arrays and a cursor. */
module DeliveryQueues {
  import opened RingTypes
  import opened Modular
  import opened DeliverySpec

  /** inst is 0 in an unused entry. */
  datatype Entry = Entry(inst: nat, key: Key, hasMapping: bool, hasFinal: bool)

  const CLEARED := Entry(0, NULL_KEY, false, false)

  function InfoOf(e: Entry, bytes: Bytes): Option<Info> {
    if e.hasMapping && e.hasFinal then Some(Deliverable(e.key, bytes))
    else if e.hasMapping then Some(Mapped(e.key, bytes))
    else if e.hasFinal then Some(Final(e.key))
    else None
  }

  /** An entry is unused or belongs, by its slot, to one instance of the window above d. */
  predicate Placed(e: Entry, k: nat, d: nat, size: nat)
    requires size > 0
  {
    if e.inst == 0 then
      !e.hasMapping && !e.hasFinal
    else
      e.inst % size == k && (d < e.inst < d + size || (e.inst == d + 1 && InfoOf(e, []).None?))
  }

  ghost predicate AllPlaced(es: seq<Entry>, d: nat) {
    |es| > 0 && forall k :: 0 <= k < |es| ==> Placed(es[k], k, d, |es|)
  }

  predicate Holds(es: seq<Entry>, i: nat)
    requires |es| > 0
  {
    es[i % |es|].inst == i && InfoOf(es[i % |es|], []).Some?
  }

  /** What the arrays say about the instances of the window. */
  ghost function View(es: seq<Entry>, slots: seq<Bytes>, d: nat): map<nat, Info>
    requires |es| == |slots| > 0
  {
    map i | d < i < d + |es| && Holds(es, i) :: InfoOf(es[i % |es|], slots[i % |es|]).value
  }

  /** Changing the entry of an instance of the window changes the view at that instance only. */
  lemma ViewUpdate(es: seq<Entry>, slots: seq<Bytes>, d: nat, inst: nat, e: Entry, bytes: Bytes)
    requires |es| == |slots| && AllPlaced(es, d) && d < inst < d + |es| && e.inst == inst
    ensures var k := inst % |es|;
            && AllPlaced(es[k := e], d)
            && View(es[k := e], slots[k := bytes], d) ==
               match InfoOf(e, bytes)
               case None => View(es, slots, d) - {inst}
               case Some(info) => View(es, slots, d)[inst := info]
  {
    var k := inst % |es|;
    var es', slots' := es[k := e], slots[k := bytes];
    forall i | d < i < d + |es| && i != inst
      ensures i % |es| != k
    {
      if i < inst {
        SlotsApart(i, inst, |es|);
      } else {
        SlotsApart(inst, i, |es|);
      }
    }
  }

  /** Delivering the head clears its entry and moves the window by one. */
  lemma ViewAdvance(es: seq<Entry>, slots: seq<Bytes>, d: nat)
    requires |es| == |slots| && AllPlaced(es, d) && Holds(es, d + 1) && |es| > 1
    ensures var k := (d + 1) % |es|;
            && AllPlaced(es[k := CLEARED], d + 1)
            && View(es[k := CLEARED], slots, d + 1) == View(es, slots, d) - {d + 1}
  {
    var n, k := |es|, (d + 1) % |es|;
    var es' := es[k := CLEARED];
    forall i | d + 1 < i < d + 1 + n
      ensures i % n != k || i == d + 1 + n
    {
      if i < d + 1 + n {
        SlotsApart(d + 1, i, n);
      }
    }
    NextLap(d + 1, n);
    assert !Holds(es, d + 1 + n);
    assert !Holds(es', d + 1 + n);
    forall j | 0 <= j < n
      ensures Placed(es'[j], j, d + 1, n)
    {
      assert Placed(es[j], j, d, n);
    }
    forall i | d + 1 < i < d + 1 + n
      ensures Holds(es', i) == (Holds(es, i) && i < d + n)
    {
      assert es'[i % n] == es[i % n];
      assert Placed(es[i % n], i % n, d, n);
    }
  }

  lemma ViewTouch(es: seq<Entry>, slots: seq<Bytes>, d: nat, inst: nat)
    requires |es| == |slots| && AllPlaced(es, d) && d < inst && (inst < d + |es| || inst == d + 1)
    ensures var k := inst % |es|;
            && (es[k].inst == inst || es[k].inst == 0)
            && AllPlaced(es[k := es[k].(inst := inst)], d)
            && View(es[k := es[k].(inst := inst)], slots, d) == View(es, slots, d)
  {
    var k, n := inst % |es|, |es|;
    assert Placed(es[k], k, d, n);
    if es[k].inst != 0 {
      if es[k].inst < inst {
        SameSlot(es[k].inst, inst, n);
      } else {
        SameSlot(inst, es[k].inst, n);
      }
    }
    var es' := es[k := es[k].(inst := inst)];
    forall i | d < i < d + n
      ensures Holds(es', i) == Holds(es, i)
    {
    }
  }

  class DeliveryQueue {
    const size: nat
    const entries: array<Entry>
    const slots: array<Bytes>
    var highestDelivered: nat
    var highestSeenClosed: nat
    var highestSeenMapping: nat
    /** What the deliver callback was called with. */
    var log: seq<Bytes>

    ghost predicate Valid()
      reads this, entries, slots
    {
      && 0 < size == entries.Length == slots.Length
      && AllPlaced(entries[..], highestDelivered)
    }

    ghost function Abs(): Queue
      requires Valid()
      reads this, entries, slots
    {
      Queue(size, highestDelivered, log, View(entries[..], slots[..], highestDelivered))
    }

    constructor (size: nat)
      requires size > 0
      ensures Valid() && fresh(entries) && fresh(slots) && Abs() == InitQueue(size)
    {
      this.size := size;
      entries := new Entry[size](_ => CLEARED);
      slots := new Bytes[size](_ => []);
      highestDelivered, highestSeenClosed, highestSeenMapping, log := 0, 0, 0, [];
      new;
      assert forall k :: 0 <= k < size ==> entries[k] == CLEARED;
    }

    /** The slot of an instance, marked as belonging to it. */
    method GetEntry(inst: nat) returns (k: nat)
      requires Valid() && highestDelivered < inst && (inst < highestDelivered + size || inst == highestDelivered + 1)
      modifies entries
      ensures Valid() && Abs() == old(Abs())
      ensures k < size && k == inst % size && entries[k] == old(entries[k]).(inst := inst)
      ensures forall j :: 0 <= j < size && j != k ==> entries[j] == old(entries[j])
    {
      k := inst % size;
      ViewTouch(entries[..], slots[..], highestDelivered, inst);
      entries[k] := entries[k].(inst := inst);
      assert entries[..] == old(entries[..])[k := old(entries[k]).(inst := inst)];
    }

    method DeliverAll()
      requires Valid()
      modifies this, entries
      ensures Valid() && Abs() == DeliverLoop(old(Abs()))
      ensures highestSeenClosed == old(highestSeenClosed) && highestSeenMapping == old(highestSeenMapping)
    {
      hide AllPlaced, View, DeliverLoop;
      var k := GetEntry(highestDelivered + 1);
      HeadInView();
      while entries[k].hasMapping && entries[k].hasFinal
        invariant Valid() && k == (highestDelivered + 1) % size && entries[k].inst == highestDelivered + 1
        invariant HeadReady(Abs()) == (entries[k].hasMapping && entries[k].hasFinal)
        invariant DeliverLoop(Abs()) == DeliverLoop(old(Abs()))
        invariant highestSeenClosed == old(highestSeenClosed) && highestSeenMapping == old(highestSeenMapping)
        decreases |Abs().know|
      {
        DeliverLoopStep(Abs());
        DeliverHead(k);
        k := GetEntry(highestDelivered + 1);
        HeadInView();
      }
      DeliverLoopStep(Abs());
    }

    /** Hands the head to the callback, clears its entry and moves the cursor. */
    method DeliverHead(k: nat)
      requires Valid() && k == (highestDelivered + 1) % size && entries[k].inst == highestDelivered + 1
      requires entries[k].hasMapping && entries[k].hasFinal
      modifies this, entries
      ensures Valid() && HeadReady(old(Abs()))
      ensures highestSeenClosed == old(highestSeenClosed) && highestSeenMapping == old(highestSeenMapping)
      ensures Abs() == DeliverOne(old(Abs()))
    {
      hide AllPlaced, View, Holds;
      HeadInView();
      ViewAdvance(entries[..], slots[..], highestDelivered);
      log := log + [slots[k]];
      entries[k] := CLEARED;
      highestDelivered := highestDelivered + 1;
      assert entries[..] == old(entries[..])[k := CLEARED];
    }

    /** The entry of the head tells whether the head is deliverable. */
    lemma HeadInView()
      requires Valid() && entries[(highestDelivered + 1) % size].inst == highestDelivered + 1
      ensures var k := (highestDelivered + 1) % size;
              && HeadReady(Abs()) == (entries[k].hasMapping && entries[k].hasFinal)
              && (HeadReady(Abs()) ==> size > 1 && Holds(entries[..], highestDelivered + 1)
                                       && Abs().know[highestDelivered + 1].bytes == slots[k])
    {
      var k := (highestDelivered + 1) % size;
      assert Placed(entries[..][k], k, highestDelivered, size);
      assert entries[..][k] == entries[k] && slots[..][k] == slots[k];
    }

    /** A mapping was multicast; false when the handler's assertion fails. */
    method HandleMapping(inst: nat, key: Key, bytes: Bytes) returns (ok: bool)
      requires Valid()
      modifies this, entries, slots
      ensures ok <==> HandleCommandMap(old(Abs()), inst, key, bytes).Some?
      ensures ok ==> Valid() && Abs() == HandleCommandMap(old(Abs()), inst, key, bytes).value
      ensures highestSeenClosed == old(highestSeenClosed)
      ensures highestSeenMapping ==
        if InWindow(old(Abs()), inst) && inst > old(highestSeenMapping) then inst else old(highestSeenMapping)
    {
      hide AllPlaced, View, DeliverLoop;
      ok := true;
      if inst >= highestDelivered + size || inst <= highestDelivered {
        return;
      }
      if inst > highestSeenMapping {
        highestSeenMapping := inst;
      }
      var k := GetEntry(inst);
      var e := entries[k];
      EntryInView(inst);
      if e.hasFinal && e.hasMapping {
        return;
      }
      if e.hasMapping {
        if e.key == key {
          ok := slots[k] == bytes;
        } else {
          SetEntry(inst, e.(key := key), bytes);
        }
      } else if e.hasFinal {
        if e.key == key {
          SetEntry(inst, e.(hasMapping := true), bytes);
          DeliverAll();
        }
      } else {
        SetEntry(inst, e.(key := key, hasMapping := true), bytes);
      }
    }

    /** An acceptance was multicast; false when the handler's assertion fails. */
    method HandleChosen(inst: nat, key: Key) returns (ok: bool)
      requires Valid()
      modifies this, entries, slots
      ensures ok <==> HandleAcceptance(old(Abs()), inst, key).Some?
      ensures ok ==> Valid() && Abs() == HandleAcceptance(old(Abs()), inst, key).value
      ensures highestSeenClosed == if inst > old(highestSeenClosed) then inst else old(highestSeenClosed)
      ensures highestSeenMapping == old(highestSeenMapping)
    {
      hide AllPlaced, View, DeliverLoop;
      ok := true;
      if inst > highestSeenClosed {
        highestSeenClosed := inst;
      }
      if inst >= highestDelivered + size || inst <= highestDelivered {
        return;
      }
      var k := GetEntry(inst);
      var e := entries[k];
      EntryInView(inst);
      var sameKey := e.key == key;
      if e.hasFinal && e.hasMapping {
        ok := sameKey;
        return;
      }
      if e.hasMapping {
        if sameKey {
          SetEntry(inst, e.(hasFinal := true), slots[k]);
          DeliverAll();
        } else {
          SetEntry(inst, e.(hasMapping := false, key := key), slots[k]);
        }
        return;
      }
      if e.hasFinal {
        ok := sameKey;
        return;
      }
      SetEntry(inst, e.(key := key, hasFinal := true), slots[k]);
    }

    lemma EntryInView(inst: nat)
      requires Valid() && highestDelivered < inst < highestDelivered + size && entries[inst % size].inst == inst
      ensures InfoOf(entries[inst % size], slots[inst % size]) == if inst in Abs().know then Some(Abs().know[inst]) else None
    {
      var k := inst % size;
      assert entries[..][k] == entries[k] && slots[..][k] == slots[k];
    }

    /** Writes the entry and the command slot of an instance of the window. */
    method SetEntry(inst: nat, e: Entry, bytes: Bytes)
      requires Valid() && highestDelivered < inst < highestDelivered + size && e.inst == inst
      modifies entries, slots
      ensures Valid()
      ensures Abs() == old(Abs()).(know := match InfoOf(e, bytes)
                                           case None => old(Abs()).know - {inst}
                                           case Some(info) => old(Abs()).know[inst := info])
    {
      var k := inst % size;
      ViewUpdate(entries[..], slots[..], highestDelivered, inst, e, bytes);
      entries[k] := e;
      slots[k] := bytes;
      assert entries[..] == old(entries[..])[k := e] && slots[..] == old(slots[..])[k := bytes];
    }

    /** Asks again for what is missing of the instances up to the highest one heard of: the mapping where none is
        known, and the chosen key below the highest chosen one, known or not. mapDue and finalDue tell which
        requests were not made too recently. */
    method PeriodicCheck(mapDue: nat -> bool, finalDue: nat -> bool) returns (maps: seq<nat>, finals: seq<nat>)
      requires Valid()
      modifies entries
      ensures Valid() && Abs() == old(Abs())
      ensures forall i: nat :: i in maps <==>
        && highestDelivered < i < highestDelivered + size && (i <= highestSeenClosed || i <= highestSeenMapping)
        && (i !in Abs().know || Abs().know[i].Final?) && mapDue(i)
      ensures forall i: nat :: i in finals <==>
        && highestDelivered < i < highestDelivered + size && i < highestSeenClosed
        && (i !in Abs().know || !Abs().know[i].Deliverable?) && finalDue(i)
    {
      hide AllPlaced, View;
      maps, finals := [], [];
      var upper := if highestSeenClosed > highestSeenMapping then highestSeenClosed else highestSeenMapping;
      var i := highestDelivered + 1;
      while i <= upper
        invariant highestDelivered < i && Valid() && Abs() == old(Abs())
        invariant i > upper || i <= highestDelivered + size || i == highestDelivered + 1
        invariant forall j: nat :: j in maps <==> Checked(j) && j < i && NeedsMapping(Abs(), j) && mapDue(j)
        invariant forall j: nat :: j in finals <==> Checked(j) && j < i && j < highestSeenClosed && !Ready(Abs(), j) && finalDue(j)
      {
        if i >= highestDelivered + size {
          break;
        }
        var k := GetEntry(i);
        EntryInView(i);
        if !(entries[k].hasMapping && entries[k].hasFinal) {
          if !entries[k].hasMapping && mapDue(i) {
            maps := maps + [i];
          }
          if i < highestSeenClosed && finalDue(i) {
            finals := finals + [i];
          }
        }
        i := i + 1;
      }
    }

    /** The instances the check goes through: never beyond what some message named. */
    predicate Checked(i: nat)
      reads this
    {
      highestDelivered < i < highestDelivered + size && (i <= highestSeenClosed || i <= highestSeenMapping)
    }
  }

  predicate Ready(q: Queue, i: nat) {
    i in q.know && q.know[i].Deliverable?
  }

  predicate NeedsMapping(q: Queue, i: nat) {
    i !in q.know || q.know[i].Final?
  }
}
