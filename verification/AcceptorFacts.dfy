/** What every message keeps in an acceptor, and why a range promise is a shorthand. */
module AcceptorFacts {
  import opened RingTypes
  import opened Modular
  import opened AcceptorSpec

  predicate RecOk(r: Rec, highestSeen: nat) {
    && r.acceptBallot <= r.ballot
    && (r.acceptBallot > 0 <==> r.accepted.Some?)
    && (r.accepted.Some? ==> r.accepted.value.key != NULL_KEY)
    && (r.proposed.Some? ==> r.proposed.value.key != NULL_KEY)
    && (r.accepted.Some? && r.proposed.Some? ==> r.accepted.value.key != r.proposed.value.key)
    && (r.inst > highestSeen ==> r.ballot == 0)
  }

  predicate AcceptorInv(a: Acceptor) {
    && |a.slots| > 0
    && (forall k :: 0 <= k < |a.slots| ==> RecOk(a.slots[k], a.highestSeen))
    && (forall k :: 0 <= k < |a.slots| ==> a.slots[k].inst > 0 ==> a.slots[k].inst % |a.slots| == k)
  }

  /** What leaders put into messages. */
  predicate WellFormed(m: Msg) {
    match m
    case Phase1(inst, ballot, _, _, _, _, _) => inst > 0 && ballot > 0
    case Phase1Range(from, to, ballot, _) => 0 < from <= to && ballot > 0
    case Phase2(inst, ballot, _, key) => inst > 0 && ballot > 0 && key != NULL_KEY
    case CmdMap(inst, key, _) => inst > 0 && key != NULL_KEY
    case Acceptance(inst, _) => inst > 0
  }

  /** The acceptor promised ballot b in the instance, or will never act on the instance again. */
  predicate AtLeast(a: Acceptor, inst: nat, b: nat)
    requires |a.slots| > 0
  {
    Gone(a, inst) || RecordOf(a, inst).ballot >= b
  }

  predicate Grows(a: Acceptor, a': Acceptor, inst: nat)
    requires |a.slots| > 0 && |a'.slots| > 0
  {
    || Gone(a', inst)
    || (&& !Gone(a, inst)
        && RecordOf(a, inst).ballot <= RecordOf(a', inst).ballot
        && RecordOf(a, inst).acceptBallot <= RecordOf(a', inst).acceptBallot)
  }

  /** Promises and acceptances only move up; an instance that is gone stays gone. */
  ghost predicate Extends(a: Acceptor, a': Acceptor) {
    |a.slots| == |a'.slots| > 0 && forall inst :: Grows(a, a', inst)
  }

  lemma ExtendsReflexive(a: Acceptor)
    requires |a.slots| > 0
    ensures Extends(a, a)
  {
    assert forall inst: nat :: Grows(a, a, inst);
  }

  lemma ExtendsTransitive(a: Acceptor, b: Acceptor, c: Acceptor)
    requires Extends(a, b) && Extends(b, c)
    ensures Extends(a, c)
  {
    forall inst: nat
      ensures Grows(a, c, inst)
    {
      assert Grows(a, b, inst) && Grows(b, c, inst);
    }
  }

  lemma PutExtends(a: Acceptor, r: Rec, a': Acceptor)
    requires |a.slots| > 0 && !Gone(a, r.inst) && a'.slots == Put(a, r).slots
    requires RecordOf(a, r.inst).ballot <= r.ballot && RecordOf(a, r.inst).acceptBallot <= r.acceptBallot
    ensures Extends(a, a')
  {
    forall inst: nat
      ensures Grows(a, a', inst)
    {
      if inst % |a.slots| == r.inst % |a.slots| {
        assert a'.slots[inst % |a.slots|] == r;
      }
    }
  }

  /** Storing an instance does not touch what is known about higher ones. */
  lemma PutLower(a: Acceptor, r: Rec, a': Acceptor, inst: nat)
    requires |a.slots| > 0 && !Gone(a, r.inst) && a'.slots == Put(a, r).slots && r.inst < inst
    ensures RecordOf(a', inst) == RecordOf(a, inst) && Gone(a', inst) == Gone(a, inst)
  {
  }

  lemma PutInv(a: Acceptor, r: Rec, h: nat)
    requires AcceptorInv(a) && r.inst > 0 && h >= a.highestSeen && RecOk(r, h)
    ensures AcceptorInv(Put(a, r).(highestSeen := h))
  {
  }

  lemma RecordOfOk(a: Acceptor, inst: nat)
    requires AcceptorInv(a)
    ensures RecOk(RecordOf(a, inst), a.highestSeen) && RecordOf(a, inst).inst == inst
  {
  }

  // ----- phase 1 -----

  lemma Phase1Facts(a: Acceptor, m: Msg)
    requires AcceptorInv(a) && m.Phase1? && WellFormed(m) && HandlePhase1(a, m).Some?
    ensures AcceptorInv(HandlePhase1(a, m).value.0) && Extends(a, HandlePhase1(a, m).value.0)
    ensures HandlePhase1(a, m).value.1 == ForwardPhase1(RecordOf(a, m.inst), m) && !Gone(a, m.inst)
    ensures m.ballot >= RecordOf(a, m.inst).ballot ==> AtLeast(HandlePhase1(a, m).value.0, m.inst, m.ballot)
  {
    var r := RecordOf(a, m.inst);
    RecordOfOk(a, m.inst);
    if m.ballot < r.ballot {
      PutInv(a, r, a.highestSeen);
      PutExtends(a, r, Put(a, r));
      assert Put(a, r).(highestSeen := a.highestSeen) == Put(a, r);
    } else {
      var r', h := r.(ballot := m.ballot), Max(m.inst, a.highestSeen);
      PutInv(a, r', h);
      PutExtends(a, r', Put(a, r').(highestSeen := h));
    }
  }

  /** A granted range: every instance was untouched before and is promised after. */
  lemma {:induction false} GrantFacts(a: Acceptor, from: nat, last: nat, ballot: nat)
    requires AcceptorInv(a) && 0 < from && last <= a.highestSeen && GrantRange(a, from, last, ballot).Some?
    ensures AcceptorInv(GrantRange(a, from, last, ballot).value) && Extends(a, GrantRange(a, from, last, ballot).value)
    ensures forall i :: from <= i <= last ==>
      && !Gone(a, i) && RecordOf(a, i).ballot == 0
      && AtLeast(GrantRange(a, from, last, ballot).value, i, ballot)
    decreases last + 1 - from
  {
    if from > last {
      assert forall inst: nat :: Grows(a, a, inst);
    } else {
      var r := RecordOf(a, from).(ballot := ballot);
      RecordOfOk(a, from);
      PutInv(a, r, a.highestSeen);
      var a1 := Put(a, r);
      assert a1 == Put(a, r).(highestSeen := a.highestSeen);
      PutExtends(a, r, a1);
      GrantFacts(a1, from + 1, last, ballot);
      var a2 := GrantRange(a, from, last, ballot).value;
      ExtendsTransitive(a, a1, a2);
      forall i | from <= i <= last
        ensures !Gone(a, i) && RecordOf(a, i).ballot == 0 && AtLeast(a2, i, ballot)
      {
        if i > from {
          PutLower(a, r, a1, i);
        } else {
          assert Grows(a1, a2, i);
        }
      }
    }
  }

  /** A range that is broken down: one forwarded phase 1 message per instance, from the record before the message. */
  lemma {:induction false} BreakFacts(a: Acceptor, from: nat, last: nat, ballot: nat, promises: nat)
    requires AcceptorInv(a) && 0 < from && ballot > 0 && BreakRange(a, from, last, ballot, promises).Some?
    ensures AcceptorInv(BreakRange(a, from, last, ballot, promises).value.0)
    ensures Extends(a, BreakRange(a, from, last, ballot, promises).value.0)
    ensures forall m :: m in BreakRange(a, from, last, ballot, promises).value.1 ==>
      && m.Phase1? && from <= m.inst <= last && !Gone(a, m.inst)
      && m == ForwardPhase1(RecordOf(a, m.inst), NewPhase1(m.inst, ballot, promises))
      && (ballot >= RecordOf(a, m.inst).ballot ==> AtLeast(BreakRange(a, from, last, ballot, promises).value.0, m.inst, ballot))
    decreases last + 1 - from
  {
    if from > last {
      assert forall inst: nat :: Grows(a, a, inst);
    } else {
      var m0 := NewPhase1(from, ballot, promises);
      Phase1Facts(a, m0);
      var a1, m1 := HandlePhase1(a, m0).value.0, HandlePhase1(a, m0).value.1;
      BreakFacts(a1, from + 1, last, ballot, promises);
      var (a2, rest) := BreakRange(a1, from + 1, last, ballot, promises).value;
      ExtendsTransitive(a, a1, a2);
      forall m | m in [m1] + rest
        ensures m.Phase1? && from <= m.inst <= last && !Gone(a, m.inst)
        ensures m == ForwardPhase1(RecordOf(a, m.inst), NewPhase1(m.inst, ballot, promises))
        ensures ballot >= RecordOf(a, m.inst).ballot ==> AtLeast(a2, m.inst, ballot)
      {
        if m in rest {
          Phase1Below(a, m0, m.inst);
        } else {
          assert Grows(a1, a2, from);
        }
      }
    }
  }

  lemma Phase1Below(a: Acceptor, m: Msg, inst: nat)
    requires AcceptorInv(a) && m.Phase1? && HandlePhase1(a, m).Some? && m.inst < inst
    ensures RecordOf(HandlePhase1(a, m).value.0, inst) == RecordOf(a, inst)
    ensures Gone(HandlePhase1(a, m).value.0, inst) == Gone(a, inst)
  {
    var r := RecordOf(a, m.inst);
    PutLower(a, r, Put(a, r), inst);
    PutLower(a, r.(ballot := m.ballot), Put(a, r.(ballot := m.ballot)), inst);
  }

  // ----- the other messages -----

  lemma VoteKeepsRecord(r: Rec, ballot: nat, key: Key, h: nat)
    requires RecOk(r, h) && ballot > 0 && key != NULL_KEY && r.inst <= h
    requires VoteOn(r, ballot, key).Some? && VoteOn(r, ballot, key).value.Accepted?
    ensures var r' := VoteOn(r, ballot, key).value.rec;
            && RecOk(r', h) && r'.inst == r.inst
            && r.ballot <= r'.ballot == ballot == r'.acceptBallot && r.acceptBallot <= ballot
            && r'.accepted.Some? && r'.accepted.value.key == key
            && (r'.accepted == r.accepted || r'.accepted == r.proposed)
  {
  }

  lemma Phase2Facts(a: Acceptor, m: Msg)
    requires AcceptorInv(a) && m.Phase2? && WellFormed(m) && HandlePhase2(a, m).Some?
    ensures AcceptorInv(HandlePhase2(a, m).value.0) && Extends(a, HandlePhase2(a, m).value.0)
    ensures !Gone(a, m.inst)
  {
    var r := RecordOf(a, m.inst);
    RecordOfOk(a, m.inst);
    if VoteOn(r, m.ballot, m.key).value.Refused? {
      PutInv(a, r, a.highestSeen);
      assert Put(a, r).(highestSeen := a.highestSeen) == Put(a, r);
      PutExtends(a, r, Put(a, r));
    } else {
      var h := Max(m.inst, a.highestSeen);
      VoteKeepsRecord(r, m.ballot, m.key, h);
      var r' := VoteOn(r, m.ballot, m.key).value.rec;
      PutInv(a, r', h);
      PutExtends(a, r', Put(a, r').(highestSeen := h));
    }
  }

  lemma CmdMapFacts(a: Acceptor, m: Msg)
    requires AcceptorInv(a) && m.CmdMap? && WellFormed(m) && HandleCmdMap(a, m).Some?
    ensures AcceptorInv(HandleCmdMap(a, m).value) && Extends(a, HandleCmdMap(a, m).value)
  {
    var r := RecordOf(a, m.inst);
    RecordOfOk(a, m.inst);
    var r' := MapInto(r, m.key, m.bytes).value;
    assert RecOk(r', a.highestSeen);
    PutInv(a, r', a.highestSeen);
    assert Put(a, r').(highestSeen := a.highestSeen) == Put(a, r');
    PutExtends(a, r', Put(a, r'));
  }

  /** Whatever the message: the record invariant survives, no promise or acceptance moves down. */
  lemma HandleKeeps(a: Acceptor, m: Msg)
    requires AcceptorInv(a) && WellFormed(m) && Handle(a, m).Some?
    ensures AcceptorInv(Handle(a, m).value.0) && Extends(a, Handle(a, m).value.0)
  {
    match m
    case Phase1(_, _, _, _, _, _, _) => Phase1Facts(a, m);
    case Phase1Range(from, to, ballot, promises) =>
      if from > a.highestSeen {
        GrantAllFacts(a, m);
      } else {
        BreakFacts(a, from, to, ballot, promises);
      }
    case Phase2(_, _, _, _) => Phase2Facts(a, m);
    case CmdMap(_, _, _) => CmdMapFacts(a, m);
    case Acceptance(_, _) => assert forall inst: nat :: Grows(a, a, inst);
  }

  lemma GrantAllFacts(a: Acceptor, m: Msg)
    requires AcceptorInv(a) && m.Phase1Range? && WellFormed(m) && m.from > a.highestSeen
    requires HandlePhase1Range(a, m).Some?
    ensures AcceptorInv(HandlePhase1Range(a, m).value.0) && Extends(a, HandlePhase1Range(a, m).value.0)
    ensures forall i :: m.from <= i <= m.to ==>
      && !Gone(a, i) && RecordOf(a, i).ballot == 0
      && AtLeast(HandlePhase1Range(a, m).value.0, i, m.ballot)
  {
    var b := a.(highestSeen := m.to);
    assert AcceptorInv(b);
    GrantFacts(b, m.from, m.to, m.ballot);
    var c := GrantRange(b, m.from, m.to, m.ballot).value;
    assert forall inst: nat :: Grows(b, c, inst) ==> Grows(a, c, inst);
    assert forall i: nat :: RecordOf(b, i) == RecordOf(a, i) && Gone(b, i) == Gone(a, i);
  }

  // ----- a range promise is the single-instance promises -----

  /** The messages of the single-instance handler when it promises each instance with nothing accepted. */
  function PromiseEach(from: nat, last: nat, ballot: nat, promises: nat): seq<Msg>
    decreases last + 1 - from
  {
    if from > last then [] else [NewPhase1(from, ballot, promises + 1)] + PromiseEach(from + 1, last, ballot, promises)
  }

  /** On instances above everything seen, granting the range at once and running the single-instance
      handler on each instance succeed together, leave the same acceptor, and promise every instance. */
  lemma {:induction false} RangeIsPerInstance(a: Acceptor, from: nat, last: nat, ballot: nat, promises: nat)
    requires AcceptorInv(a) && a.highestSeen < from <= last
    ensures GrantRange(a.(highestSeen := last), from, last, ballot).Some? <==> BreakRange(a, from, last, ballot, promises).Some?
    ensures BreakRange(a, from, last, ballot, promises).Some? ==>
      BreakRange(a, from, last, ballot, promises).value ==
      (GrantRange(a.(highestSeen := last), from, last, ballot).value, PromiseEach(from, last, ballot, promises))
    decreases last - from
  {
    var b := a.(highestSeen := last);
    RecordOfOk(a, from);
    var r := RecordOf(a, from);
    assert r.ballot == 0 && RecordOf(b, from) == r && Gone(b, from) == Gone(a, from);
    if !Gone(a, from) {
      var r' := r.(ballot := ballot);
      var a1 := Put(a, r').(highestSeen := from);
      assert HandlePhase1(a, NewPhase1(from, ballot, promises)) == Some((a1, NewPhase1(from, ballot, promises + 1)));
      assert Put(b, r') == a1.(highestSeen := last);
      if from < last {
        PutInvAbove(a, r', from);
        RangeIsPerInstance(a1, from + 1, last, ballot, promises);
      } else {
        assert BreakRange(a1, from + 1, last, ballot, promises) == Some((a1, []));
        assert PromiseEach(from + 1, last, ballot, promises) == [];
      }
    }
  }

  lemma PutInvAbove(a: Acceptor, r: Rec, h: nat)
    requires AcceptorInv(a) && a.highestSeen <= r.inst == h && r.inst > 0 && r.acceptBallot == 0
    requires RecOk(r.(ballot := 0), a.highestSeen)
    ensures AcceptorInv(Put(a, r).(highestSeen := h))
  {
    assert RecOk(r, h);
    PutInv(a, r, h);
  }
}
