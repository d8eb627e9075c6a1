/** Acceptors of the single-leader system: they only ever hold what the leader assigned, and no assertion of
    theirs fails but the one on reused slots. */
module AcceptorTruth {
  import opened RingTypes
  import opened Modular
  import opened AcceptorSpec
  import opened AcceptorFacts
  import L = LeaderSpec
  import opened LeaderTruth

  predicate HeldTrue(given: seq<Mapping>, inst: nat, m: Option<Mapping>) {
    m.Some? ==> GivenTo(given, inst, m.value.key, m.value.bytes)
  }

  predicate RecordTrue(c: L.Config, given: seq<Mapping>, opened1: nat, r: Rec) {
    && r.inst <= opened1 && (r.ballot == 0 || r.ballot == FirstBallot(c))
    && HeldTrue(given, r.inst, r.accepted) && HeldTrue(given, r.inst, r.proposed)
  }

  ghost predicate AccTrue(c: L.Config, given: seq<Mapping>, opened1: nat, a: Acceptor) {
    && AcceptorInv(a) && |a.slots| == c.workingSet
    && forall k :: 0 <= k < |a.slots| ==> RecordTrue(c, given, opened1, a.slots[k])
  }

  lemma AccStaysTrue(c: L.Config, given: seq<Mapping>, opened1: nat, given': seq<Mapping>, opened1': nat, a: Acceptor)
    requires given <= given' && opened1 <= opened1' && AccTrue(c, given, opened1, a)
    ensures AccTrue(c, given', opened1', a)
  {
    hide FirstBallot, AcceptorInv;
    forall k | 0 <= k < |a.slots|
      ensures RecordTrue(c, given', opened1', a.slots[k])
    {
      assert RecordTrue(c, given, opened1, a.slots[k]);
    }
  }

  lemma RecordOfTrue(c: L.Config, given: seq<Mapping>, opened1: nat, a: Acceptor, inst: nat)
    requires AccTrue(c, given, opened1, a) && inst <= opened1
    ensures RecordTrue(c, given, opened1, RecordOf(a, inst)) && RecOk(RecordOf(a, inst), a.highestSeen)
    ensures RecordOf(a, inst).inst == inst
  {
    hide FirstBallot;
    RecordOfOk(a, inst);
  }

  lemma PutTrue(c: L.Config, given: seq<Mapping>, opened1: nat, a: Acceptor, r: Rec, h: nat)
    requires AccTrue(c, given, opened1, a) && RecordTrue(c, given, opened1, r) && r.inst > 0
    requires h >= a.highestSeen && RecOk(r, h)
    ensures AccTrue(c, given, opened1, Put(a, r).(highestSeen := h))
  {
    hide FirstBallot;
    PutInv(a, r, h);
  }

  // ----- phase 1 -----

  /** The only ballot in use is promised at once, and the message still carries no higher promise. */
  lemma Phase1True(c: L.Config, given: seq<Mapping>, opened1: nat, a: Acceptor, m: Msg)
    requires AccTrue(c, given, opened1, a) && m.Phase1? && MsgTrue(c, given, opened1, m)
    ensures HandlePhase1(a, m).Some? <==> !Gone(a, m.inst)
    ensures HandlePhase1(a, m).Some? ==>
      AccTrue(c, given, opened1, HandlePhase1(a, m).value.0) && MsgTrue(c, given, opened1, HandlePhase1(a, m).value.1)
  {
    hide FirstBallot, AcceptorInv, AccTrue;
    assert |a.slots| > 0 by { AccSize(c, given, opened1, a); }
    if !Gone(a, m.inst) {
      RecordOfTrue(c, given, opened1, a, m.inst);
      var r := RecordOf(a, m.inst);
      PutTrue(c, given, opened1, a, r.(ballot := m.ballot), Max(m.inst, a.highestSeen));
    }
  }

  lemma AccSize(c: L.Config, given: seq<Mapping>, opened1: nat, a: Acceptor)
    requires AccTrue(c, given, opened1, a)
    ensures |a.slots| == c.workingSet > 0 && AcceptorInv(a)
  {
  }

  /** Some instance of [from..last] has lost its slot to a newer one. */
  ghost predicate AnyGone(a: Acceptor, from: nat, last: nat)
    requires |a.slots| > 0
  {
    exists i :: from <= i <= last && Gone(a, i)
  }

  lemma PutGone(a: Acceptor, r: Rec, a': Acceptor, last: nat)
    requires |a.slots| > 0 && !Gone(a, r.inst) && a'.slots == Put(a, r).slots
    ensures AnyGone(a', r.inst + 1, last) <==> AnyGone(a, r.inst + 1, last)
    ensures r.inst <= last ==> (AnyGone(a, r.inst, last) <==> AnyGone(a, r.inst + 1, last))
  {
    forall i: nat | r.inst < i
      ensures Gone(a', i) == Gone(a, i)
    {
      PutLower(a, r, a', i);
    }
  }

  lemma {:induction false} GrantTrue(c: L.Config, given: seq<Mapping>, opened1: nat, a: Acceptor, from: nat, last: nat)
    requires AccTrue(c, given, opened1, a) && 0 < from && last <= opened1 && last <= a.highestSeen
    requires forall i :: from <= i <= last ==> Gone(a, i) || RecordOf(a, i).ballot == 0
    ensures GrantRange(a, from, last, FirstBallot(c)).Some? <==> !AnyGone(a, from, last)
    ensures GrantRange(a, from, last, FirstBallot(c)).Some? ==>
      AccTrue(c, given, opened1, GrantRange(a, from, last, FirstBallot(c)).value)
    decreases last + 1 - from
  {
    hide FirstBallot, AcceptorInv, AccTrue, Gone;
    AccSize(c, given, opened1, a);
    if from <= last && !Gone(a, from) {
      RecordOfTrue(c, given, opened1, a, from);
      var r := RecordOf(a, from).(ballot := FirstBallot(c));
      PutTrue(c, given, opened1, a, r, a.highestSeen);
      var a1 := Put(a, r);
      assert a1 == Put(a, r).(highestSeen := a.highestSeen);
      PutGone(a, r, a1, last);
      forall i | from < i <= last
        ensures Gone(a1, i) || RecordOf(a1, i).ballot == 0
      {
        PutLower(a, r, a1, i);
      }
      GrantTrue(c, given, opened1, a1, from + 1, last);
    }
  }

  lemma {:induction false} BreakTrue(c: L.Config, given: seq<Mapping>, opened1: nat, a: Acceptor, from: nat, last: nat, promises: nat)
    requires AccTrue(c, given, opened1, a) && 0 < from && last <= opened1
    ensures BreakRange(a, from, last, FirstBallot(c), promises).Some? <==> !AnyGone(a, from, last)
    ensures BreakRange(a, from, last, FirstBallot(c), promises).Some? ==>
      && AccTrue(c, given, opened1, BreakRange(a, from, last, FirstBallot(c), promises).value.0)
      && AllTrue(c, given, opened1, BreakRange(a, from, last, FirstBallot(c), promises).value.1)
    decreases last + 1 - from
  {
    hide FirstBallot, AcceptorInv, AccTrue, Gone, HandlePhase1;
    AccSize(c, given, opened1, a);
    if from <= last {
      var m := NewPhase1(from, FirstBallot(c), promises);
      Phase1True(c, given, opened1, a, m);
      if !Gone(a, from) {
        var a1 := HandlePhase1(a, m).value.0;
        AccSize(c, given, opened1, a1);
        Phase1Gone(a, m, last);
        BreakTrue(c, given, opened1, a1, from + 1, last, promises);
      }
    }
  }

  lemma Phase1Gone(a: Acceptor, m: Msg, last: nat)
    requires |a.slots| > 0 && m.Phase1? && HandlePhase1(a, m).Some? && m.inst <= last
    ensures |HandlePhase1(a, m).value.0.slots| > 0
    ensures AnyGone(a, m.inst, last) <==> AnyGone(HandlePhase1(a, m).value.0, m.inst + 1, last)
  {
    var r := RecordOf(a, m.inst);
    var a' := HandlePhase1(a, m).value.0;
    var r' := if m.ballot < r.ballot then r else r.(ballot := m.ballot);
    hide AnyGone;
    PutGone(a, r', a', last);
  }

  // ----- phase 2 and mappings -----

  /** Only the assigned key is ever voted for, and its mapping is the only one ever held: the handler never
      holds a command as both accepted and proposed. */
  lemma Phase2True(c: L.Config, given: seq<Mapping>, opened1: nat, a: Acceptor, m: Msg)
    requires AccTrue(c, given, opened1, a) && m.Phase2? && MsgTrue(c, given, opened1, m) && |given| <= opened1
    requires m.key != NULL_KEY && FirstBallot(c) > 0
    ensures HandlePhase2(a, m).Some? <==> !Gone(a, m.inst)
    ensures HandlePhase2(a, m).Some? ==>
      AccTrue(c, given, opened1, HandlePhase2(a, m).value.0) && AllTrue(c, given, opened1, HandlePhase2(a, m).value.1)
  {
    hide FirstBallot, AcceptorInv, AccTrue;
    AccSize(c, given, opened1, a);
    if !Gone(a, m.inst) {
      RecordOfTrue(c, given, opened1, a, m.inst);
      var r := RecordOf(a, m.inst);
      assert VoteOn(r, m.ballot, m.key).Some?;
      if VoteOn(r, m.ballot, m.key).value.Accepted? {
        var h := Max(m.inst, a.highestSeen);
        VoteKeepsRecord(r, m.ballot, m.key, h);
        PutTrue(c, given, opened1, a, VoteOn(r, m.ballot, m.key).value.rec, h);
      } else {
        PutTrue(c, given, opened1, a, r, a.highestSeen);
        assert Put(a, r).(highestSeen := a.highestSeen) == Put(a, r);
      }
    }
  }

  lemma CmdMapTrue(c: L.Config, given: seq<Mapping>, opened1: nat, a: Acceptor, m: Msg)
    requires AccTrue(c, given, opened1, a) && m.CmdMap? && MsgTrue(c, given, opened1, m) && |given| <= opened1
    requires m.key != NULL_KEY
    ensures HandleCmdMap(a, m).Some? <==> !Gone(a, m.inst)
    ensures HandleCmdMap(a, m).Some? ==> AccTrue(c, given, opened1, HandleCmdMap(a, m).value)
  {
    hide FirstBallot, AcceptorInv, AccTrue;
    AccSize(c, given, opened1, a);
    if !Gone(a, m.inst) {
      RecordOfTrue(c, given, opened1, a, m.inst);
      var r := RecordOf(a, m.inst);
      SameTextReflexive(m.bytes);
      assert MapInto(r, m.key, m.bytes).Some?;
      var r' := MapInto(r, m.key, m.bytes).value;
      PutTrue(c, given, opened1, a, r', a.highestSeen);
      assert Put(a, r').(highestSeen := a.highestSeen) == Put(a, r');
    }
  }

  lemma RangeTrue(c: L.Config, given: seq<Mapping>, opened1: nat, a: Acceptor, m: Msg)
    requires AccTrue(c, given, opened1, a) && m.Phase1Range? && MsgTrue(c, given, opened1, m)
    ensures |a.slots| > 0 && (HandlePhase1Range(a, m).Some? <==> !AnyGone(a, m.from, m.to))
    ensures HandlePhase1Range(a, m).Some? ==>
      AccTrue(c, given, opened1, HandlePhase1Range(a, m).value.0) && AllTrue(c, given, opened1, HandlePhase1Range(a, m).value.1)
  {
    hide FirstBallot, AcceptorInv, Gone;
    AccSize(c, given, opened1, a);
    if m.from > a.highestSeen {
      var b := a.(highestSeen := m.to);
      assert AccTrue(c, given, opened1, b) by { SeenUp(a, m.to); }
      forall i | m.from <= i <= m.to
        ensures Gone(b, i) || RecordOf(b, i).ballot == 0
      {
        RecordOfOk(a, i);
        assert RecordOf(b, i) == RecordOf(a, i);
      }
      SameGone(a, b, m.from, m.to);
      GrantTrue(c, given, opened1, b, m.from, m.to);
    } else {
      BreakTrue(c, given, opened1, a, m.from, m.to, m.promises);
    }
  }

  lemma SeenUp(a: Acceptor, h: nat)
    requires AcceptorInv(a) && a.highestSeen <= h
    ensures AcceptorInv(a.(highestSeen := h))
  {
  }

  lemma SameGone(a: Acceptor, b: Acceptor, from: nat, last: nat)
    requires a.slots == b.slots && |a.slots| > 0
    ensures AnyGone(a, from, last) <==> AnyGone(b, from, last)
  {
    assert forall i: nat :: Gone(a, i) == Gone(b, i);
  }

  // ----- any message -----

  ghost predicate Concerns(m: Msg, i: nat) {
    match m
    case Phase1(inst, _, _, _, _, _, _) => i == inst
    case Phase1Range(from, to, _, _) => from <= i <= to
    case Phase2(inst, _, _, _) => i == inst
    case CmdMap(inst, _, _) => i == inst
    case Acceptance(_, _) => false
  }

  /** An acceptor aborts on a message exactly when the slot of an instance it concerns was reused; otherwise
      it and the messages it forwards stay true. */
  lemma HandleTrue(c: L.Config, given: seq<Mapping>, opened1: nat, a: Acceptor, m: Msg)
    requires AccTrue(c, given, opened1, a) && MsgTrue(c, given, opened1, m) && |given| <= opened1
    requires c.id > 0 && FirstBallot(c) > 0 && forall j :: 0 <= j < |given| ==> given[j].key.mcaster == c.id
    ensures |a.slots| > 0 && (Handle(a, m).None? <==> exists i :: Concerns(m, i) && Gone(a, i))
    ensures Handle(a, m).Some? ==>
      AccTrue(c, given, opened1, Handle(a, m).value.0) && AllTrue(c, given, opened1, Handle(a, m).value.1)
  {
    hide FirstBallot, AcceptorInv, AccTrue, Gone, HandlePhase1, HandlePhase1Range, HandlePhase2, HandleCmdMap;
    AccSize(c, given, opened1, a);
    match m
    case Phase1(inst, _, _, _, _, _, _) =>
      Phase1True(c, given, opened1, a, m);
      assert Concerns(m, inst);
    case Phase1Range(from, to, _, _) =>
      RangeTrue(c, given, opened1, a, m);
      assert forall i: nat :: Concerns(m, i) <==> from <= i <= to;
    case Phase2(inst, _, _, _) =>
      Phase2True(c, given, opened1, a, m);
      assert Concerns(m, inst);
    case CmdMap(inst, _, _) =>
      CmdMapTrue(c, given, opened1, a, m);
      assert Concerns(m, inst);
    case Acceptance(_, _) =>
  }

  // ----- reuse of slots -----

  /** While the leader's phase-1 window stays below `closed + workingSet`, no record of an instance above
      `closed` has lost its slot. */
  lemma UnfinishedNotGone(c: L.Config, given: seq<Mapping>, opened1: nat, a: Acceptor, closed: nat, i: nat)
    requires AccTrue(c, given, opened1, a) && opened1 < closed + c.workingSet && closed < i
    ensures |a.slots| > 0 && !Gone(a, i)
  {
    hide FirstBallot;
    AccSize(c, given, opened1, a);
    var n := |a.slots|;
    var r := a.slots[i % n];
    assert RecordTrue(c, given, opened1, r);
    if r.inst > i {
      assert r.inst % n == i % n;
      SameSlot(i, r.inst, n);
    }
  }
}
