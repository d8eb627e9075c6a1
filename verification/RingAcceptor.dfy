/** The ring acceptor as the program runs it: records changed in place, commands copied between slots and
    allocated buffers. Each handler is proved against its function in AcceptorSpec. */
module RingAcceptors {
  import opened RingTypes
  import opened AcceptorSpec
  import opened AcceptorStore

  /** Abort: an assertion of the program fails. Fault: it frees a buffer that is not allocated. */
  datatype Outcome = Done | Abort | Fault

  /** The record of a slot is reused for another instance while it owns a buffer. */
  predicate Drops(r: CRec, inst: nat, h: Memory) {
    r.inst < inst && r.proposed.Heap? && r.proposed.addr in h
  }

  /** The buffer that record r owned and r' does not own, when it is still allocated. */
  function Dropped(r: CRec, r': CRec, h: Memory): set<nat> {
    if r.proposed.Heap? && r.proposed.addr in h && r'.proposed != r.proposed then {r.proposed.addr} else {}
  }

  /** The slot of the instance holds its record, and the record is stale. */
  predicate StaleAt(rs: seq<CRec>, h: Memory, inst: nat)
    requires |rs| > 0
  {
    var r := rs[inst % |rs|];
    r.inst == inst && Stale(r, h)
  }

  /** Edge A8: the command is known but not accepted, and another one is accepted. */
  predicate Replaces(r: Rec, m: Msg)
    requires m.Phase2?
  {
    m.ballot >= r.ballot && r.accepted.Some? && r.proposed.Some? && r.proposed.value.key == m.key
  }

  /** The stale slots after the slot of an instance was asked for: a reused slot is clean. */
  function Cleaned(rs: seq<CRec>, stale: set<nat>, inst: nat): set<nat>
    requires |rs| > 0
  {
    if rs[inst % |rs|].inst < inst then stale - {inst % |rs|} else stale
  }

  /** The stale slots after a phase 2 message: edge A8 leaves its slot stale. */
  function Restaled(rs: seq<CRec>, stale: set<nat>, m: Msg, replaced: bool): set<nat>
    requires |rs| > 0 && m.Phase2?
  {
    if replaced then Cleaned(rs, stale, m.inst) + {m.inst % |rs|} else Cleaned(rs, stale, m.inst)
  }

  function Recycled(rs: seq<CRec>, inst: nat, h: Memory): set<nat>
    requires |rs| > 0
  {
    var r := rs[inst % |rs|];
    if Drops(r, inst, h) then {r.proposed.addr} else {}
  }

  /** The buffers lost when every instance of [from..upto) asks for its slot. */
  function RecycledRange(rs: seq<CRec>, from: nat, upto: nat, h: Memory): set<nat>
    requires |rs| > 0
  {
    set i | from <= i < upto && Drops(rs[i % |rs|], i, h) :: rs[i % |rs|].proposed.addr
  }

  /** Every record is as it was, up to its promise, or was reused for an instance of [from..upto). */
  ghost predicate ReusedFor(rs: seq<CRec>, rs': seq<CRec>, from: nat, upto: nat) {
    && |rs'| == |rs|
    && forall k :: 0 <= k < |rs| ==>
         || (rs'[k].inst == rs[k].inst && rs'[k].proposed == rs[k].proposed)
         || (rs'[k].proposed.Null? && rs[k].inst < rs'[k].inst && from <= rs'[k].inst < upto && rs'[k].inst % |rs| == k)
  }

  /** The record of the instance's slot after it was asked for; the others are untouched. */
  predicate OnlySlot(rs: seq<CRec>, rs': seq<CRec>, inst: nat)
    requires |rs| > 0
  {
    var k := inst % |rs|;
    && |rs'| == |rs| && rs' == rs[k := rs'[k]]
    && rs'[k].inst == inst && rs'[k].proposed == if rs[k].inst == inst then rs[k].proposed else Null
  }

  /** One more instance of a range asks for its slot. */
  lemma OneMoreReused(rs0: seq<CRec>, rs: seq<CRec>, rs': seq<CRec>, from: nat, i: nat, h: Memory)
    requires |rs0| > 0 && ReusedFor(rs0, rs, from, i) && OnlySlot(rs, rs', i) && from <= i && rs[i % |rs|].inst <= i
    ensures ReusedFor(rs0, rs', from, i + 1)
    ensures RecycledRange(rs0, from, i + 1, h) == RecycledRange(rs0, from, i, h) + Recycled(rs, i, h)
  {
    var k := i % |rs0|;
    assert rs0[k].inst <= rs[k].inst;
    forall a: nat
      ensures a in RecycledRange(rs0, from, i + 1, h) <==> a in RecycledRange(rs0, from, i, h) || a in Recycled(rs, i, h)
    {
      RangeMember(rs0, from, i, h, a);
      if rs[k].inst != rs0[k].inst {
        var j := rs[k].inst;
        assert Drops(rs0[k], i, h) ==> from <= j < i && Drops(rs0[j % |rs0|], j, h);
      }
    }
  }

  lemma NothingReused(rs: seq<CRec>, from: nat, last: nat, h: Memory)
    requires |rs| > 0
    ensures ReusedFor(rs, rs, from, from) && RecycledRange(rs, from, from, h) == {}
    ensures from > last ==> RecycledRange(rs, from, last + 1, h) == {}
  {
  }

  lemma RangeMember(rs: seq<CRec>, from: nat, i: nat, h: Memory, a: nat)
    requires |rs| > 0 && from <= i
    ensures a in RecycledRange(rs, from, i + 1, h) <==>
      a in RecycledRange(rs, from, i, h) || (Drops(rs[i % |rs|], i, h) && rs[i % |rs|].proposed.addr == a)
  {
  }

  class RingAcceptor {
    const records: array<CRec>
    const commands: array<Bytes>
    var heap: Memory
    var nextAddr: nat
    var highestSeen: nat
    var sent: seq<Msg>

    ghost predicate Valid()
      reads this, records, commands
    {
      && records.Length == commands.Length > 0
      && StoreValid(records[..], commands[..], heap, nextAddr)
      && forall k :: 0 <= k < records.Length ==> records[k].inst == 0 ==> records[k] == CLEARED
    }

    ghost function Abs(): (a: Acceptor)
      requires Valid()
      reads this, records, commands
      ensures |a.slots| == records.Length > 0
    {
      Acceptor(AbsAll(records[..], commands[..], heap), highestSeen)
    }

    ghost function LostNow(): set<nat>
      reads this, records
    {
      Lost(records[..], heap)
    }

    ghost function StaleNow(): set<nat>
      reads this, records
    {
      StaleSlots(records[..], heap)
    }

    /** The record as the specification sees it. */
    ghost function View(k: nat): Rec
      requires Valid() && k < records.Length
      reads this, records, commands
    {
      Abs().slots[k]
    }

    constructor (size: nat, slotSize: nat)
      requires size > 0
      ensures Valid() && fresh(records) && fresh(commands) && Abs() == InitAcceptor(size)
      ensures sent == [] && LostNow() == {} && StaleNow() == {} && nextAddr == 0
    {
      records := new CRec[size](_ => CLEARED);
      commands := new Bytes[size](_ => seq(slotSize, _ => 0));
      heap, nextAddr, highestSeen, sent := map[], 0, 0, [];
      new;
      assert forall k :: 0 <= k < size ==> records[k] == CLEARED;
      assert Abs().slots == InitAcceptor(size).slots;
    }

    lemma RecordFacts(k: nat)
      requires Valid() && k < records.Length
      ensures RecValid(records[k], commands[k], heap, nextAddr) && View(k) == AbsRec(records[k], commands[k], heap)
    {
      assert RecValid(records[..][k], commands[..][k], heap, nextAddr);
    }

    // ----- the record store -----

    /** The slot of an instance, cleared for it if it held an older one. A buffer the old record owned is lost. */
    method GetRecord(inst: nat) returns (ok: bool, k: nat)
      requires Valid() && inst > 0
      modifies records
      ensures Valid() && k == inst % records.Length && k < records.Length
      ensures ok <==> !Gone(old(Abs()), inst)
      ensures ok ==> Abs() == Put(old(Abs()), RecordOf(old(Abs()), inst)) && View(k) == RecordOf(old(Abs()), inst)
      ensures ok ==> records[k].inst == inst
      ensures ok ==> OnlySlot(old(records[..]), records[..], inst)
      ensures !ok ==> records[..] == old(records[..])
      ensures LostNow() == old(LostNow()) + if Drops(old(records[k]), inst, heap) then {old(records[k]).proposed.addr} else {}
      ensures StaleNow() == Cleaned(old(records[..]), old(StaleNow()), inst)
    {
      k := inst % records.Length;
      var r := records[k];
      ok := true;
      assert RecValid(records[..][k], commands[..][k], heap, nextAddr);
      if r.inst == 0 {
        SetRecord(k, r.(inst := inst));
      } else if r.inst < inst {
        SetRecord(k, CLEARED.(inst := inst));
      } else if r.inst > inst {
        ok := false;
      }
      assert Abs().slots == if ok then Put(old(Abs()), RecordOf(old(Abs()), inst)).slots else old(Abs()).slots;
    }

    /** Overwrites the record of a slot, leaving commands and buffers alone. */
    method SetRecord(k: nat, r: CRec)
      requires Valid() && k < records.Length && r.inst > 0
      requires RecValid(r, commands[k], heap, nextAddr) && OwnOrNew(records[k], r, nextAddr)
      modifies records
      ensures Valid() && records[..] == old(records[..])[k := r]
      ensures Abs() == old(Abs()).(slots := old(Abs()).slots[k := AbsRec(r, commands[k], heap)])
      ensures LostNow() == old(LostNow()) + Dropped(old(records[k]), r, heap)
      ensures StaleNow() == if Stale(r, heap) then old(StaleNow()) + {k} else old(StaleNow()) - {k}
    {
      UpdateOne(records[..], commands[..], heap, nextAddr, k, r, commands[k], heap, nextAddr);
      LostAfter(records[..], commands[..], heap, nextAddr, k, r, heap);
      records[k] := r;
      assert records[..] == old(records[..])[k := r];
      assert commands[..] == old(commands[..])[k := commands[k]];
    }

    /** Writes a record, its command slot, and the memory after a buffer was freed or allocated for it. */
    method SetMemory(k: nat, r: CRec, slot: Bytes, h: Memory, next: nat)
      requires Valid() && k < records.Length && r.inst > 0
      requires RecValid(r, slot, h, next) && OwnOrNew(records[k], r, nextAddr)
      requires OthersKept(records[k], heap, h, nextAddr)
      requires nextAddr <= next && (forall a :: a in h ==> a < next)
      requires (forall a :: a in h && a >= nextAddr ==> r.proposed == Heap(a))
      modifies this`heap, this`nextAddr, records, commands
      ensures Valid() && records[..] == old(records[..])[k := r] && commands[..] == old(commands[..])[k := slot]
      ensures heap == h && nextAddr == next
      ensures Abs() == old(Abs()).(slots := old(Abs()).slots[k := AbsRec(r, slot, h)])
      ensures LostNow() == old(LostNow()) + Dropped(old(records[k]), r, h)
      ensures StaleNow() == if Stale(r, h) then old(StaleNow()) + {k} else old(StaleNow()) - {k}
    {
      UpdateOne(records[..], commands[..], heap, nextAddr, k, r, slot, h, next);
      LostAfter(records[..], commands[..], heap, nextAddr, k, r, h);
      records[k], commands[k], heap, nextAddr := r, slot, h, next;
      assert records[..] == old(records[..])[k := r];
      assert commands[..] == old(commands[..])[k := slot];
    }

    method Send(m: Msg)
      requires Valid()
      modifies this`sent
      ensures Valid() && Abs() == old(Abs()) && sent == old(sent) + [m]
      ensures LostNow() == old(LostNow()) && StaleNow() == old(StaleNow())
    {
      sent := sent + [m];
    }

    // ----- phase 1 -----

    method HandlePhase1Msg(m: Msg) returns (ok: bool)
      requires Valid() && m.Phase1? && m.inst > 0
      modifies this, records
      ensures Valid() && (ok <==> HandlePhase1(old(Abs()), m).Some?)
      ensures ok ==>
        && Abs() == HandlePhase1(old(Abs()), m).value.0
        && sent == old(sent) + [HandlePhase1(old(Abs()), m).value.1]
        && OnlySlot(old(records[..]), records[..], m.inst) && old(records[m.inst % records.Length]).inst <= m.inst
      ensures LostNow() == old(LostNow()) + Recycled(old(records[..]), m.inst, heap)
      ensures StaleNow() == Cleaned(old(records[..]), old(StaleNow()), m.inst)
      ensures nextAddr == old(nextAddr) && heap == old(heap)
    {
      hide StoreValid, AbsAll, Lost, StaleSlots;
      var k;
      ok, k := GetRecord(m.inst);
      if !ok {
        return;
      }
      AnswerPhase1(k, m);
    }

    method AnswerPhase1(k: nat, m: Msg)
      requires Valid() && m.Phase1? && k < records.Length && records[k].inst == m.inst > 0
      modifies this`sent, this`highestSeen, records
      ensures Valid() && sent == old(sent) + [ForwardPhase1(old(View(k)), m)]
      ensures Abs() == if m.ballot < old(View(k)).ballot then old(Abs())
                       else Acceptor(old(Abs()).slots[k := old(View(k)).(ballot := m.ballot)], Max(m.inst, old(highestSeen)))
      ensures LostNow() == old(LostNow()) && StaleNow() == old(StaleNow())
      ensures records[..] == old(records[..])[k := records[k]]
      ensures records[k].inst == old(records[k]).inst && records[k].proposed == old(records[k]).proposed
    {
      hide StoreValid, AbsAll, Lost, StaleSlots;
      RecordFacts(k);
      var r := records[k];
      if m.ballot < r.ballot {
        var promised := if r.ballot > m.highestPromised then r.ballot else m.highestPromised;
        Send(Phase1(m.inst, m.ballot, m.promises, m.highestAccepted, promised, m.key, m.bytes));
        return;
      }
      if m.inst > highestSeen {
        highestSeen := m.inst;
      }
      StaleIsIn(k);
      SetRecord(k, r.(ballot := m.ballot));
      if r.acceptBallot <= m.highestAccepted {
        Send(Phase1(m.inst, m.ballot, m.promises + 1, m.highestAccepted, m.highestPromised, m.key, m.bytes));
        return;
      }
      Send(Phase1(m.inst, m.ballot, m.promises + 1, r.acceptBallot, m.highestPromised, r.acceptedKey, commands[k][..r.acceptedSize]));
    }

    lemma StaleIsIn(k: nat)
      requires k < records.Length
      ensures k in StaleNow() <==> Stale(records[k], heap)
    {
    }

    /** Promises a whole range that starts above everything seen, or goes through it instance by instance. */
    method HandlePhase1RangeMsg(m: Msg) returns (ok: bool)
      requires Valid() && m.Phase1Range? && m.from > 0
      modifies this, records
      ensures Valid() && (ok <==> HandlePhase1Range(old(Abs()), m).Some?)
      ensures ok ==>
        && Abs() == HandlePhase1Range(old(Abs()), m).value.0
        && sent == old(sent) + HandlePhase1Range(old(Abs()), m).value.1
        && LostNow() == old(LostNow()) + RecycledRange(old(records[..]), m.from, m.to + 1, heap)
      ensures StaleNow() <= old(StaleNow())
      ensures nextAddr == old(nextAddr) && heap == old(heap)
    {
      if m.from > highestSeen {
        ok := Grant(m.from, m.to, m.ballot);
        if ok {
          Send(Phase1Range(m.from, m.to, m.ballot, m.promises + 1));
        }
      } else {
        ok := Break(m.from, m.to, m.ballot, m.promises);
      }
    }

    method Grant(from: nat, last: nat, ballot: nat) returns (ok: bool)
      requires Valid() && from > 0
      modifies this`highestSeen, records
      ensures Valid() && (ok <==> GrantRange(old(Abs()).(highestSeen := last), from, last, ballot).Some?)
      ensures ok ==> Abs() == GrantRange(old(Abs()).(highestSeen := last), from, last, ballot).value
      ensures ok ==> sent == old(sent) && LostNow() == old(LostNow()) + RecycledRange(old(records[..]), from, last + 1, heap)
      ensures StaleNow() <= old(StaleNow())
    {
      hide StoreValid, AbsAll, Lost, StaleSlots, Gone, RecordOf, ReusedFor, RecycledRange, OnlySlot, Recycled;
      NothingReused(records[..], from, last, heap);
      highestSeen := last;
      ghost var start := Abs();
      assert start == old(Abs()).(highestSeen := last);
      var i := from;
      ok := true;
      while i <= last
        invariant from <= i && Valid() && ok && (i <= last + 1 || i == from)
        invariant ReusedFor(old(records[..]), records[..], from, i) && StaleNow() <= old(StaleNow())
        invariant LostNow() == old(LostNow()) + RecycledRange(old(records[..]), from, i, heap)
        invariant GrantRange(start, from, last, ballot) == GrantRange(Abs(), i, last, ballot)
        decreases last + 1 - i
      {
        ghost var before := records[..];
        ok := GrantOne(i, ballot);
        if !ok {
          return;
        }
        OneMoreReused(old(records[..]), before, records[..], from, i, heap);
        i := i + 1;
      }
    }

    method GrantOne(inst: nat, ballot: nat) returns (ok: bool)
      requires Valid() && inst > 0
      modifies records
      ensures Valid() && (ok <==> !Gone(old(Abs()), inst) && RecordOf(old(Abs()), inst).ballot == 0)
      ensures ok ==> Abs() == Put(old(Abs()), RecordOf(old(Abs()), inst).(ballot := ballot))
      ensures ok ==> OnlySlot(old(records[..]), records[..], inst) && old(records[inst % records.Length]).inst <= inst
      ensures LostNow() == old(LostNow()) + Recycled(old(records[..]), inst, heap) && StaleNow() <= old(StaleNow())
    {
      hide StoreValid, AbsAll, Lost, StaleSlots;
      var k;
      ok, k := GetRecord(inst);
      if !ok {
        return;
      }
      RecordFacts(k);
      if records[k].ballot != 0 {
        ok := false;
        return;
      }
      StaleIsIn(k);
      SetRecord(k, records[k].(ballot := ballot));
    }

    method Break(from: nat, last: nat, ballot: nat, promises: nat) returns (ok: bool)
      requires Valid() && from > 0
      modifies this, records
      ensures Valid() && (ok <==> BreakRange(old(Abs()), from, last, ballot, promises).Some?)
      ensures ok ==>
        && Abs() == BreakRange(old(Abs()), from, last, ballot, promises).value.0
        && sent == old(sent) + BreakRange(old(Abs()), from, last, ballot, promises).value.1
        && LostNow() == old(LostNow()) + RecycledRange(old(records[..]), from, last + 1, heap)
      ensures StaleNow() <= old(StaleNow())
      ensures nextAddr == old(nextAddr) && heap == old(heap)
    {
      hide StoreValid, AbsAll, Lost, StaleSlots, HandlePhase1, ReusedFor, RecycledRange, OnlySlot, Recycled;
      NothingReused(records[..], from, last, heap);
      ghost var whole := BreakRange(Abs(), from, last, ballot, promises);
      var i := from;
      ok := true;
      assert sent[|old(sent)|..] == [];
      ContinuesStart(whole);
      while i <= last
        invariant from <= i && Valid() && ok && old(sent) <= sent && (i <= last + 1 || i == from)
        invariant ReusedFor(old(records[..]), records[..], from, i) && StaleNow() <= old(StaleNow())
        invariant LostNow() == old(LostNow()) + RecycledRange(old(records[..]), from, i, heap)
        invariant nextAddr == old(nextAddr) && heap == old(heap)
        invariant Continues(whole, sent[|old(sent)|..], BreakRange(Abs(), i, last, ballot, promises))
        decreases last + 1 - i
      {
        ghost var a, before, rs := Abs(), sent, records[..];
        var m := NewPhase1(i, ballot, promises);
        ok := HandlePhase1Msg(m);
        if !ok {
          return;
        }
        ghost var m' := HandlePhase1(a, m).value.1;
        ContinuesStep(whole, before[|old(sent)|..], BreakRange(a, i, last, ballot, promises), [m'],
                      BreakRange(Abs(), i + 1, last, ballot, promises));
        SliceAppend(before, [m'], |old(sent)|);
        OneMoreReused(old(records[..]), rs, records[..], from, i, heap);
        i := i + 1;
      }
    }

    // ----- phase 2 -----

    /** A phase 2 message for the record of slot k. */
    method Vote(k: nat, m: Msg) returns (outcome: Outcome)
      requires Valid() && m.Phase2? && k < records.Length && records[k].inst == m.inst > 0 && m.ballot > 0
      requires m.key != NULL_KEY
      modifies this, records, commands
      ensures var vote := VoteOn(old(View(k)), m.ballot, m.key);
              && (outcome == Abort <==> vote.None?)
              && (outcome == Fault <==> old(k in StaleNow()) && m.ballot >= old(View(k)).ballot && m.key == KeyOf(old(View(k)).accepted))
              && (outcome == Done ==>
                    && vote.Some? && Valid() && LostNow() == old(LostNow())
                    && StaleNow() == (if Replaces(old(View(k)), m) then old(StaleNow()) + {k} else old(StaleNow()))
                    && if vote.value.Refused? then
                         Abs() == old(Abs()) && sent == old(sent)
                       else
                         && Abs() == Acceptor(old(Abs()).slots[k := vote.value.rec], Max(m.inst, old(highestSeen)))
                         && sent == old(sent) + [Phase2(m.inst, m.ballot, m.accepts + 1, m.key)])
    {
      hide StoreValid, AbsAll, Lost, StaleSlots;
      RecordFacts(k);
      StaleIsIn(k);
      outcome := Done;
      var r := records[k];
      if m.ballot < r.ballot {
        return;
      }
      var isProposed, isAccepted := m.key == r.proposedKey, m.key == r.acceptedKey;
      if isProposed && isAccepted {
        outcome := Abort;
        return;
      }
      if !isProposed && !isAccepted {
        return;
      }
      if m.inst > highestSeen {
        highestSeen := m.inst;
      }
      if isAccepted {
        outcome := AcceptAgain(k, m.ballot);
      } else if r.accepted.Null? {
        AcceptFirst(k, m.ballot);
      } else {
        AcceptOther(k, m.ballot);
      }
      if outcome == Done {
        Send(Phase2(m.inst, m.ballot, m.accepts + 1, m.key));
      }
    }

    /** Edges A4 and A6. */
    method AcceptAgain(k: nat, ballot: nat) returns (outcome: Outcome)
      requires Valid() && k < records.Length && records[k].inst > 0 && records[k].accepted.InSlot? && ballot > 0
      modifies this`heap, this`nextAddr, records, commands
      ensures outcome == if old(k in StaleNow()) then Fault else Done
      ensures outcome == Done ==>
        && Valid() && LostNow() == old(LostNow()) && StaleNow() == old(StaleNow())
        && Abs() == old(Abs()).(slots := old(Abs()).slots[k :=
                      old(View(k)).(ballot := ballot, acceptBallot := ballot, proposed := None)])
    {
      hide StoreValid, AbsAll, Lost, StaleSlots;
      RecordFacts(k);
      StaleIsIn(k);
      outcome := Done;
      var r := records[k].(ballot := ballot, acceptBallot := ballot);
      if r.proposed.Heap? {
        if r.proposed.addr !in heap {
          outcome := Fault;
          return;
        }
        MemoryBounds();
        SetMemory(k, r.(proposedKey := NULL_KEY, proposed := Null, proposedSize := 0), commands[k], heap - {r.proposed.addr}, nextAddr);
      } else {
        SetRecord(k, r);
      }
    }

    lemma MemoryBounds()
      requires Valid()
      ensures forall a :: a in heap ==> a < nextAddr
    {
    }

    /** Edge A2: the mapping is in the slot already. */
    method AcceptFirst(k: nat, ballot: nat)
      requires Valid() && k < records.Length && records[k].inst > 0 && records[k].accepted.Null?
      requires records[k].proposed.InSlot?
      requires ballot > 0
      modifies this, records
      ensures Valid() && LostNow() == old(LostNow()) && StaleNow() == old(StaleNow()) && sent == old(sent)
      ensures Abs() == old(Abs()).(slots := old(Abs()).slots[k :=
                old(View(k)).(ballot := ballot, acceptBallot := ballot, accepted := old(View(k)).proposed, proposed := None)])
    {
      hide StoreValid, AbsAll, Lost, StaleSlots;
      RecordFacts(k);
      StaleIsIn(k);
      var r := records[k];
      SetRecord(k, r.(ballot := ballot, acceptBallot := ballot,
                      acceptedKey := r.proposedKey, accepted := r.proposed, acceptedSize := r.proposedSize,
                      proposedKey := NULL_KEY, proposed := Null, proposedSize := 0));
    }

    /** Edge A8: the second mapping is copied over the accepted command and its buffer freed. The record's
        pointer to the buffer is not cleared. */
    method AcceptOther(k: nat, ballot: nat)
      requires Valid() && k < records.Length && records[k].inst > 0 && records[k].accepted.InSlot? && ballot > 0
      requires records[k].proposed.Heap? && records[k].proposed.addr in heap
      modifies this, records, commands
      ensures Valid() && LostNow() == old(LostNow()) && StaleNow() == old(StaleNow()) + {k} && sent == old(sent)
      ensures highestSeen == old(highestSeen)
      ensures Abs() == old(Abs()).(slots := old(Abs()).slots[k :=
                old(View(k)).(ballot := ballot, acceptBallot := ballot, accepted := old(View(k)).proposed, proposed := None)])
    {
      hide StoreValid, AbsAll, Lost, StaleSlots;
      RecordFacts(k);
      MemoryBounds();
      var r := records[k];
      var slot := CopyInto(commands[k], heap[r.proposed.addr]);
      SetMemory(k, r.(ballot := ballot, acceptBallot := ballot,
                      acceptedKey := r.proposedKey, acceptedSize := r.proposedSize,
                      proposedKey := NULL_KEY, proposedSize := 0), slot, heap - {r.proposed.addr}, nextAddr);
    }

    /** Fault exactly when the command is accepted again by a record that still points to a buffer it freed; in
        every other case the handler does what the specification says. A record gets stale when a second
        command is accepted in place of a first one. */
    method HandlePhase2Msg(m: Msg) returns (outcome: Outcome)
      requires Valid() && m.Phase2? && m.inst > 0 && m.ballot > 0 && m.key != NULL_KEY
      modifies this, records, commands
      ensures outcome == Fault <==>
        && !Gone(old(Abs()), m.inst) && StaleAt(old(records[..]), old(heap), m.inst)
        && var r := RecordOf(old(Abs()), m.inst); m.ballot >= r.ballot && r.accepted.Some? && m.key == r.accepted.value.key
      ensures outcome == Abort <==> HandlePhase2(old(Abs()), m).None?
      ensures outcome == Done ==>
        && Valid() && Abs() == HandlePhase2(old(Abs()), m).value.0
        && sent == old(sent) + HandlePhase2(old(Abs()), m).value.1
      ensures outcome == Done ==>
        StaleNow() == Restaled(old(records[..]), old(StaleNow()), m, Replaces(RecordOf(old(Abs()), m.inst), m))
      ensures outcome == Done ==> LostNow() == old(LostNow()) + Recycled(old(records[..]), m.inst, old(heap))
    {
      hide StoreValid, AbsAll, Lost, StaleSlots;
      StaleIsIn(m.inst % records.Length);
      outcome := Abort;
      var ok, k := GetRecord(m.inst);
      if ok {
        outcome := Vote(k, m);
      }
    }

    // ----- mappings -----

    /** A mapping for the record of slot k. */
    method Learn(k: nat, m: Msg) returns (outcome: Outcome)
      requires Valid() && m.CmdMap? && k < records.Length && records[k].inst == m.inst > 0 && m.key != NULL_KEY
      modifies this`heap, this`nextAddr, records, commands
      ensures var r := old(View(k));
              var stale := old(k in StaleNow());
              && (outcome == Abort <==> MapInto(r, m.key, m.bytes).None? || (stale && m.key != KeyOf(r.accepted) && m.bytes == []))
              && (outcome == Fault <==> stale && MapInto(r, m.key, m.bytes).Some? && (m.key == KeyOf(r.accepted) || m.bytes != []))
              && (outcome == Done ==>
                    && MapInto(r, m.key, m.bytes).Some? && Valid() && LostNow() == old(LostNow()) && StaleNow() == old(StaleNow())
                    && Abs() == old(Abs()).(slots := old(Abs()).slots[k := MapInto(r, m.key, m.bytes).value]))
    {
      hide StoreValid, AbsAll, Lost, StaleSlots;
      RecordFacts(k);
      StaleIsIn(k);
      MemoryBounds();
      outcome := Done;
      var r := records[k];
      if r.accepted.InSlot? && m.key == r.acceptedKey {
        if r.acceptedSize != |m.bytes| || !SameText(commands[k][..r.acceptedSize], m.bytes) {
          outcome := Abort;
        } else if r.proposed.Heap? {
          outcome := DropSecond(k);
        }
        return;
      }
      if r.proposed.InSlot? && m.key == r.proposedKey {
        outcome := if SameCommand(commands[k][..r.proposedSize], m.bytes) then Done else Abort;
        return;
      }
      if r.proposed.Heap? && m.key == r.proposedKey {
        outcome := if SameCommand(heap[r.proposed.addr], m.bytes) then Done else Abort;
        return;
      }
      if r.accepted.Null? {
        var slot := CopyInto(commands[k], m.bytes);
        SetMemory(k, r.(proposed := InSlot, proposedSize := |m.bytes|, proposedKey := m.key), slot, heap, nextAddr);
        return;
      }
      var second := r.(proposed := Heap(nextAddr), proposedSize := |m.bytes|, proposedKey := m.key);
      if r.proposed.Null? {
        SetMemory(k, second, commands[k], heap[nextAddr := m.bytes], nextAddr + 1);
        return;
      }
      outcome := ReplaceSecond(k, m);
    }

    /** Edge M6. */
    method DropSecond(k: nat) returns (outcome: Outcome)
      requires Valid() && k < records.Length && records[k].inst > 0 && records[k].proposed.Heap?
      modifies this`heap, this`nextAddr, records, commands
      ensures outcome == if old(k in StaleNow()) then Fault else Done
      ensures outcome == Done ==>
        && Valid() && LostNow() == old(LostNow()) && StaleNow() == old(StaleNow())
        && Abs() == old(Abs()).(slots := old(Abs()).slots[k := old(View(k)).(proposed := None)])
    {
      hide StoreValid, AbsAll, Lost, StaleSlots;
      RecordFacts(k);
      StaleIsIn(k);
      MemoryBounds();
      outcome := Done;
      var r := records[k];
      if r.proposed.addr !in heap {
        outcome := Fault;
        return;
      }
      SetMemory(k, r.(proposedKey := NULL_KEY, proposed := Null, proposedSize := 0), commands[k], heap - {r.proposed.addr}, nextAddr);
    }

    /** Edge M8: only the most recent second mapping is kept. */
    method ReplaceSecond(k: nat, m: Msg) returns (outcome: Outcome)
      requires Valid() && m.CmdMap? && k < records.Length && records[k].inst > 0 && records[k].proposed.Heap?
      requires m.key != NULL_KEY
      requires m.key != records[k].acceptedKey
      modifies this`heap, this`nextAddr, records, commands
      ensures var stale := old(k in StaleNow());
              var second := old(View(k)).proposed;
              var same := if stale then m.bytes == [] else second.Some? && SameCommand(second.value.bytes, m.bytes);
              && outcome == (if same then Abort else if stale then Fault else Done)
              && (outcome == Done ==>
                    && Valid() && LostNow() == old(LostNow()) && StaleNow() == old(StaleNow())
                    && Abs() == old(Abs()).(slots := old(Abs()).slots[k :=
                                  old(View(k)).(proposed := Some(Mapping(m.key, m.bytes)))]))
    {
      hide StoreValid, AbsAll, Lost, StaleSlots;
      RecordFacts(k);
      StaleIsIn(k);
      MemoryBounds();
      outcome := Done;
      var r := records[k];
      if r.proposedSize == |m.bytes| && (r.proposedSize == 0 || SameText(heap[r.proposed.addr], m.bytes)) {
        outcome := Abort;
        return;
      }
      if r.proposed.addr !in heap {
        outcome := Fault;
        return;
      }
      var second := r.(proposed := Heap(nextAddr), proposedSize := |m.bytes|, proposedKey := m.key);
      SetMemory(k, second, commands[k], (heap - {r.proposed.addr})[nextAddr := m.bytes], nextAddr + 1);
    }

    /** Fault exactly when the record is stale and the handler gets as far as freeing its second mapping. */
    method HandleCmdMapMsg(m: Msg) returns (outcome: Outcome)
      requires Valid() && m.CmdMap? && m.inst > 0 && m.key != NULL_KEY
      modifies this, records, commands
      ensures outcome == Fault <==>
        && HandleCmdMap(old(Abs()), m).Some? && StaleAt(old(records[..]), old(heap), m.inst)
        && (m.key == KeyOf(RecordOf(old(Abs()), m.inst).accepted) || m.bytes != [])
      ensures !StaleAt(old(records[..]), old(heap), m.inst) ==> (outcome == Abort <==> HandleCmdMap(old(Abs()), m).None?)
      ensures outcome == Done ==>
        && HandleCmdMap(old(Abs()), m).Some? && Valid() && Abs() == HandleCmdMap(old(Abs()), m).value && sent == old(sent)
        && LostNow() == old(LostNow()) + Recycled(old(records[..]), m.inst, old(heap))
        && StaleNow() == Cleaned(old(records[..]), old(StaleNow()), m.inst)
    {
      hide StoreValid, AbsAll, Lost, StaleSlots;
      StaleIsIn(m.inst % records.Length);
      outcome := Abort;
      var ok, k := GetRecord(m.inst);
      if ok {
        outcome := Learn(k, m);
      }
    }
  }
}
