/** The single leader over its history: what it keeps in records and puts into messages is the client value
    assigned to the instance, always at its first ballot. */
module LeaderTruth {
  import opened RingTypes
  import opened Modular
  import opened Ballots
  import opened LeaderRecord
  import opened DequeSpec
  import opened LeaderSpec
  import opened LeaderInv

  function FirstBallot(c: Config): nat {
    MakeFirstBallot(c.id, c.incarnation)
  }

  /** Instance i (from 1) was given the mapping given[i - 1]. */
  predicate GivenTo(given: seq<Mapping>, inst: nat, key: Key, bytes: Bytes) {
    0 < inst <= |given| && given[inst - 1] == Mapping(key, bytes)
  }

  predicate KeyGivenTo(given: seq<Mapping>, inst: nat, key: Key) {
    0 < inst <= |given| && given[inst - 1].key == key
  }

  /** A message agrees with the history: `opened1` is the highest instance opened for phase 1. */
  predicate MsgTrue(c: Config, given: seq<Mapping>, opened1: nat, m: Msg) {
    match m
    case Phase1(inst, ballot, _, highest, promised, key, bytes) =>
      && 0 < inst <= opened1 && ballot == FirstBallot(c) && promised == 0
      && (highest > 0 ==> GivenTo(given, inst, key, bytes))
    case Phase1Range(from, to, ballot, _) => 0 < from <= to <= opened1 && ballot == FirstBallot(c)
    case Phase2(inst, ballot, _, key) => KeyGivenTo(given, inst, key) && ballot == FirstBallot(c)
    case CmdMap(inst, key, bytes) => GivenTo(given, inst, key, bytes)
    case Acceptance(inst, key) => KeyGivenTo(given, inst, key)
  }

  ghost predicate AllTrue(c: Config, given: seq<Mapping>, opened1: nat, ms: seq<Msg>) {
    forall m :: m in ms ==> MsgTrue(c, given, opened1, m)
  }

  predicate RecTrue(c: Config, given: seq<Mapping>, opened1: nat, r: MRec) {
    && (0 < r.inst <= opened1 ==> r.ballot == FirstBallot(c))
    && (0 < r.inst <= |given| ==> r.value.Some? && GivenTo(given, r.inst, r.key, r.value.value))
  }

  /** Sequence numbers run from 1 to 0xFFFE and start again. */
  const KEY_PERIOD := 0xFFFE

  function SeqAt(n: nat): nat {
    1 + n % KEY_PERIOD
  }

  /** The key of the (n + 1)-th assignment. */
  function KeyAt(c: Config, n: nat): Key {
    Key(c.id, c.incarnation, SeqAt(n))
  }

  lemma NextKey(n: nat)
    ensures NextSeqNumber(SeqAt(n)) == SeqAt(n + 1)
  {
    StepIndex(n, KEY_PERIOD);
  }

  /** Two assignments get the same key exactly when they are a multiple of the period apart. */
  lemma KeysRepeat(c: Config, m: nat, n: nat)
    requires m <= n
    ensures KeyAt(c, m) == KeyAt(c, n) <==> (n - m) % KEY_PERIOD == 0
  {
    var qm, qn := m / KEY_PERIOD, n / KEY_PERIOD;
    assert n - m == KEY_PERIOD * (qn - qm) + (n % KEY_PERIOD - m % KEY_PERIOD);
  }

  ghost predicate SlotsTrue(c: Config, given: seq<Mapping>, l: Leader) {
    && |given| == l.highestOpen
    && (forall k :: 0 <= k < |l.slots| ==> RecTrue(c, given, l.p1HighestOpen, l.slots[k]))
    && l.seqNumber == SeqAt(|given|)
    && (forall j :: 0 <= j < |given| ==> given[j].key == KeyAt(c, j))
  }

  ghost predicate LeaderTrue(c: Config, given: seq<Mapping>, l: Leader) {
    LeaderOk(c, l) && SlotsTrue(c, given, l)
  }

  /** History only grows, so a true message stays true. */
  lemma StaysTrue(c: Config, given: seq<Mapping>, opened1: nat, given': seq<Mapping>, opened1': nat, m: Msg)
    requires given <= given' && opened1 <= opened1' && MsgTrue(c, given, opened1, m)
    ensures MsgTrue(c, given', opened1', m)
  {
    hide FirstBallot;
  }

  lemma AllStayTrue(c: Config, given: seq<Mapping>, opened1: nat, given': seq<Mapping>, opened1': nat, ms: seq<Msg>)
    requires given <= given' && opened1 <= opened1' && AllTrue(c, given, opened1, ms)
    ensures AllTrue(c, given', opened1', ms)
  {
    hide MsgTrue;
    forall m | m in ms
      ensures MsgTrue(c, given', opened1', m)
    {
      StaysTrue(c, given, opened1, given', opened1', m);
    }
  }

  // ----- records and the messages made from them -----

  lemma RecordMessages(c: Config, given: seq<Mapping>, l: Leader, i: nat)
    requires LeaderTrue(c, given, l) && l.highestClosed < i <= l.p1HighestOpen
    ensures Get(l, i) == Some(l) && RecTrue(c, given, l.p1HighestOpen, Slot(l, i)) && Slot(l, i).inst == i
    ensures Slot(l, i).status == P1Pending ==> MsgTrue(c, given, l.p1HighestOpen, Phase1Msg(Slot(l, i)))
    ensures Slot(l, i).status == P2Pending || Slot(l, i).status == Done ==>
      && i <= l.highestOpen
      && AllTrue(c, given, l.p1HighestOpen, [MappingMsg(Slot(l, i)), Phase2Msg(Slot(l, i)), Acceptance(i, Slot(l, i).key)])
    ensures Slot(l, i).status == P1Pending || Slot(l, i).status == P1Done ==> i > l.highestOpen && Slot(l, i).value.None?
  {
    hide FirstBallot;
    GetWithin(c, l, i);
  }

  /** Every slot of l' is that of l, or differs in its status only. */
  ghost predicate StatusOnly(l: Leader, l': Leader) {
    && l' == l.(slots := l'.slots) && |l'.slots| == |l.slots|
    && forall k :: 0 <= k < |l.slots| ==> l'.slots[k] == l.slots[k].(status := l'.slots[k].status)
  }

  lemma StatusKeepsTrue(c: Config, given: seq<Mapping>, l: Leader, l': Leader)
    requires SlotsTrue(c, given, l) && StatusOnly(l, l')
    ensures SlotsTrue(c, given, l')
  {
    hide FirstBallot;
    forall k | 0 <= k < |l'.slots|
      ensures RecTrue(c, given, l'.p1HighestOpen, l'.slots[k])
    {
      assert RecTrue(c, given, l.p1HighestOpen, l.slots[k]);
    }
  }

  lemma SetStatus(c: Config, l: Leader, inst: nat, st: Status)
    requires LeaderOk(c, l) && l.highestClosed < inst <= l.p1HighestOpen
    ensures StatusOnly(l, SetSlot(l, Slot(l, inst).(status := st)))
  {
    GetWithin(c, l, inst);
  }

  // ----- opening instances -----

  lemma {:induction false} PrepareRecords(l: Leader, from: nat, last: nat, b: nat)
    requires |l.slots| > 0 && PrepareRange(l, from, last, b).Some?
    ensures var l' := PrepareRange(l, from, last, b).value;
            && |l'.slots| == |l.slots|
            && forall k :: 0 <= k < |l.slots| ==>
                 l'.slots[k] == l.slots[k] || (from <= l'.slots[k].inst <= last && l'.slots[k].ballot == b)
    ensures forall i :: from <= i <= last ==> Slot(PrepareRange(l, from, last, b).value, i).ballot == b
    decreases last + 1 - from
  {
    if from <= last {
      var l1 := Get(l, from).value;
      var l2 := SetSlot(l1, Slot(l1, from).(status := P1Pending, ballot := b));
      assert l2.slots == l.slots[from % |l.slots| := l2.slots[from % |l.slots|]] by { hide PrepareRange; GetOneSlot(l, from); }
      PrepareRecords(l2, from + 1, last, b);
      var l' := PrepareRange(l2, from + 1, last, b).value;
      forall i | from <= i <= last
        ensures Slot(l', i).ballot == b
      {
        if i == from {
          assert l'.slots[from % |l.slots|] == l2.slots[from % |l.slots|] || l'.slots[from % |l.slots|].ballot == b;
        }
      }
    }
  }

  lemma GetOneSlot(l: Leader, inst: nat)
    requires |l.slots| > 0 && Get(l, inst).Some?
    ensures var l1 := Get(l, inst).value;
            l1.slots == l.slots[inst % |l.slots| := l1.slots[inst % |l.slots|]] && l1.slots[inst % |l.slots|].inst == inst
  {
  }

  lemma OpenPhase1True(c: Config, given: seq<Mapping>, l: Leader)
    requires LeaderTrue(c, given, l)
    ensures OpenPhase1(c, l).Some?
    ensures var (l', sends) := OpenPhase1(c, l).value;
            LeaderTrue(c, given, l') && AllTrue(c, given, l'.p1HighestOpen, sends)
  {
    hide LeaderOk, PrepareRange, MakeFirstBallot, RecTrue;
    OpenPhase1Keeps(c, l);
    LeaderBounds(c, l);
    var active := ActiveCount(l);
    if active < c.preexec / 2 {
      var last := l.p1HighestOpen + (c.preexec - active);
      var l1 := PrepareRange(l, l.p1HighestOpen + 1, last, FirstBallot(c)).value;
      PrepareRecords(l, l.p1HighestOpen + 1, last, FirstBallot(c));
      PrepareRest(l, l.p1HighestOpen + 1, last, FirstBallot(c));
      var l2 := OpenPhase1(c, l).value.0;
      forall i | l.p1HighestOpen + 1 <= i <= last
        ensures Slot(l2, i).ballot == FirstBallot(c)
      {
        assert Slot(l2, i) == Slot(l1, i);
      }
      InPlace(c, l2, l.p1HighestOpen + 1, last, FirstBallot(c));
      PreparedTrue(c, given, l, last, l1.slots);
    }
  }

  lemma InPlace(c: Config, l: Leader, from: nat, last: nat, b: nat)
    requires LeaderOk(c, l) && 0 < from && forall i :: from <= i <= last ==> Slot(l, i).ballot == b
    ensures forall k :: 0 <= k < |l.slots| ==> from <= l.slots[k].inst <= last ==> l.slots[k].ballot == b
  {
    forall k | 0 <= k < |l.slots| && from <= l.slots[k].inst <= last
      ensures l.slots[k].ballot == b
    {
      assert SlotOk(l, k);
      assert Slot(l, l.slots[k].inst).ballot == b;
    }
  }

  lemma PreparedTrue(c: Config, given: seq<Mapping>, l: Leader, last: nat, slots: seq<MRec>)
    requires SlotsTrue(c, given, l) && |slots| == |l.slots| && l.highestOpen <= l.p1HighestOpen <= last
    requires forall k :: 0 <= k < |l.slots| ==>
      slots[k] == l.slots[k] || (l.p1HighestOpen + 1 <= slots[k].inst <= last && slots[k].ballot == FirstBallot(c))
    requires forall k :: 0 <= k < |slots| ==> l.p1HighestOpen < slots[k].inst <= last ==> slots[k].ballot == FirstBallot(c)
    ensures forall k :: 0 <= k < |slots| ==> RecTrue(c, given, last, slots[k])
  {
    hide FirstBallot;
    forall k | 0 <= k < |slots|
      ensures RecTrue(c, given, last, slots[k])
    {
      assert RecTrue(c, given, l.p1HighestOpen, l.slots[k]);
    }
  }

  /** A new assignment: the next client value, under a new key of this leader, goes to the next instance. */
  lemma OpenOneTrue(c: Config, given: seq<Mapping>, l: Leader)
    requires LeaderTrue(c, given, l) && OpenOne(c, l).Opened?
    ensures var o := OpenOne(c, l);
            && LeaderTrue(c, given + [o.mapping], o.leader)
            && AllTrue(c, given + [o.mapping], l.p1HighestOpen, o.sends)
  {
    OpenOneKeeps(c, l);
    OpenOneShape(c, given, l);
  }

  lemma OpenOneKey(c: Config, given: seq<Mapping>, l: Leader)
    requires |l.slots| > 0 && l.seqNumber == SeqAt(|given|) && OpenOne(c, l).Opened?
    ensures OpenOne(c, l).leader.seqNumber == SeqAt(|given| + 1)
    ensures OpenOne(c, l).mapping.key == KeyAt(c, |given|)
  {
    hide UnsignedRoom, NextSeqNumber, SeqAt;
    NextKey(|given|);
  }

  lemma OpenOneShape(c: Config, given: seq<Mapping>, l: Leader)
    requires LeaderTrue(c, given, l) && OpenOne(c, l).Opened?
    ensures var o := OpenOne(c, l);
            && SlotsTrue(c, given + [o.mapping], o.leader)
            && AllTrue(c, given + [o.mapping], l.p1HighestOpen, o.sends)
  {
    hide FirstBallot, UnsignedRoom, NextSeqNumber, KeyAt, SeqAt;
    OpenOneKey(c, given, l);
    var i := l.highestOpen + 1;
    var o := OpenOne(c, l);
    OpenOneKeeps(c, l);
    RecordMessages(c, given, l, i);
    var l', given' := o.leader, given + [o.mapping];
    assert l'.slots == l.slots[i % |l.slots| := Slot(l', i)];
    assert Slot(l', i) == Slot(l, i).(key := o.mapping.key, value := Some(o.mapping.bytes), status := P2Pending);
    assert given'[i - 1] == o.mapping;
    assert forall j :: 0 <= j < |given'| ==> given'[j].key == KeyAt(c, j);
    forall k | 0 <= k < |l'.slots|
      ensures RecTrue(c, given', l'.p1HighestOpen, l'.slots[k])
    {
      assert RecTrue(c, given, l.p1HighestOpen, l.slots[k]) && SlotOk(l, k);
    }
  }

  lemma {:induction false} OpenPhase2True(c: Config, given: seq<Mapping>, l: Leader, count: nat)
    requires LeaderTrue(c, given, l)
    ensures OpenPhase2(c, l, count).Some?
    ensures var (l', sends, mappings) := OpenPhase2(c, l, count).value;
            LeaderTrue(c, given + mappings, l') && AllTrue(c, given + mappings, l'.p1HighestOpen, sends)
    decreases |l.queue|
  {
    hide SlotsTrue, LeaderOk, MsgTrue, OpenOne;
    LeaderBounds(c, l);
    OpenPhase2Keeps(c, l, count);
    OpenOneKeeps(c, l);
    if OpenOne(c, l).Opened? {
      var o := OpenOne(c, l);
      OpenOneTrue(c, given, l);
      if count + 1 >= c.maxPerIteration {
      } else {
        LeaderBounds(c, o.leader);
        OpenPhase2True(c, given + [o.mapping], o.leader, count + 1);
        var (l2, sends2, mappings) := OpenPhase2(c, o.leader, count + 1).value;
        OpenPhase2Keeps(c, o.leader, count + 1);
        assert given + ([o.mapping] + mappings) == given + [o.mapping] + mappings;
        AllStayTrue(c, given + [o.mapping], l.p1HighestOpen, given + ([o.mapping] + mappings), l2.p1HighestOpen, o.sends);
      }
    } else {
      assert given + [] == given;
    }
  }

  // ----- timeouts and answers from the ring -----

  lemma {:induction false} CheckExpiredTrue(c: Config, given: seq<Mapping>, l: Leader, i: nat, last: nat, expired: set<nat>)
    requires LeaderTrue(c, given, l) && l.highestClosed < i && last <= l.p1HighestOpen
    ensures CheckExpired(l, i, last, expired).Some? && CheckExpired(l, i, last, expired).value.0 == l
    ensures AllTrue(c, given, l.p1HighestOpen, CheckExpired(l, i, last, expired).value.1)
    decreases last + 1 - i
  {
    hide LeaderTrue, MsgTrue, Get, Slot;
    LeaderBounds(c, l) by { LeaderOfTrue(c, given, l); }
    if i <= last {
      RecordMessages(c, given, l, i);
      var r := Slot(l, i);
      assert r.status == P2Pending ==> MappingMsg(r) in [MappingMsg(r), Phase2Msg(r), Acceptance(i, r.key)];
      assert r.status == P2Pending ==> Phase2Msg(r) in [MappingMsg(r), Phase2Msg(r), Acceptance(i, r.key)];
      CheckExpiredTrue(c, given, l, i + 1, last, expired);
    }
  }

  lemma LeaderOfTrue(c: Config, given: seq<Mapping>, l: Leader)
    requires LeaderTrue(c, given, l)
    ensures LeaderOk(c, l) && |given| == l.highestOpen
  {
  }

  lemma {:induction false} FinishRangeTrue(c: Config, given: seq<Mapping>, l: Leader, i: nat, last: nat)
    requires LeaderTrue(c, given, l) && l.highestClosed < i && last <= l.p1HighestOpen && FinishRange(l, i, last).Some?
    ensures LeaderTrue(c, given, FinishRange(l, i, last).value)
    decreases last + 1 - i
  {
    FinishRangeKeeps(c, l, i, last);
    FinishRangeStatus(c, l, i, last);
    StatusKeepsTrue(c, given, l, FinishRange(l, i, last).value);
  }

  lemma {:induction false} FinishRangeStatus(c: Config, l: Leader, i: nat, last: nat)
    requires LeaderOk(c, l) && l.highestClosed < i && last <= l.p1HighestOpen && FinishRange(l, i, last).Some?
    ensures StatusOnly(l, FinishRange(l, i, last).value)
    decreases last + 1 - i
  {
    if i <= last {
      hide LeaderOk;
      LeaderBounds(c, l);
      GetOk(c, l, i);
      var r := OnRange(Slot(l, i)).value;
      SetStatus(c, l, i, P1Done);
      var l1 := SetSlot(l, r);
      FinishRangeKeeps(c, l, i, i);
      assert FinishRange(l1, i + 1, i) == Some(l1);
      FinishRangeStatus(c, l1, i + 1, last);
    }
  }

  lemma HandlePhase1RangeTrue(c: Config, given: seq<Mapping>, l: Leader, m: Msg)
    requires LeaderTrue(c, given, l) && m.Phase1Range? && MsgTrue(c, given, l.p1HighestOpen, m)
    requires HandlePhase1Range(c, l, m).Some?
    ensures var (l', sends) := HandlePhase1Range(c, l, m).value;
            LeaderTrue(c, given, l') && AllTrue(c, given, l'.p1HighestOpen, sends) && l' == l.(slots := l'.slots)
  {
    hide IsMyBallot, LeaderTrue, FinishRange;
    LeaderOfTrue(c, given, l);
    HandlePhase1RangeKeeps(c, l, m);
    if IsMyBallot(m.ballot, c.id, c.incarnation) && m.from > l.highestClosed && m.promises >= c.quorum {
      FinishRangeTrue(c, given, l, m.from, m.to);
    }
  }

  /** The only leader is never told of a higher promise and never finds a command in an instance it has not
      used: its ballots are never raised, no value is given back, and the branch that forgets what phase 1
      reported is never taken with anything to forget. */
  lemma OnlyLeaderIsNeverRefused(c: Config, given: seq<Mapping>, l: Leader, m: Msg)
    requires LeaderTrue(c, given, l) && m.Phase1? && MsgTrue(c, given, l.p1HighestOpen, m) && m.inst > l.highestClosed
    ensures Get(l, m.inst) == Some(l)
    ensures var r := Slot(l, m.inst);
            && !ForgetsReport(c.quorum, r, m)
            && OnPhase1(c.quorum, r, m).back.None?
            && OnPhase1(c.quorum, r, m).rec == r.(status := OnPhase1(c.quorum, r, m).rec.status)
            && OnPhase1(c.quorum, r, m).rec.ballot == FirstBallot(c)
  {
    hide FirstBallot;
    RecordMessages(c, given, l, m.inst);
  }

  lemma HandlePhase1True(c: Config, given: seq<Mapping>, l: Leader, m: Msg)
    requires LeaderTrue(c, given, l) && m.Phase1? && MsgTrue(c, given, l.p1HighestOpen, m)
    ensures HandlePhase1(c, l, m).Some?
    ensures var (l', sends) := HandlePhase1(c, l, m).value;
            LeaderTrue(c, given, l') && AllTrue(c, given, l'.p1HighestOpen, sends) && l' == l.(slots := l'.slots)
  {
    hide IsMyBallot, LeaderOk, FirstBallot, Get, Slot, SetSlot, SlotsTrue;
    HandlePhase1Keeps(c, l, m);
    if m.inst > l.highestClosed && IsMyBallot(m.ballot, c.id, c.incarnation) {
      OnlyLeaderIsNeverRefused(c, given, l, m);
      RecordMessages(c, given, l, m.inst);
      LeaderBounds(c, l);
      var r := Slot(l, m.inst);
      var reply := OnPhase1(c.quorum, r, m);
      SetStatus(c, l, m.inst, reply.rec.status);
      StatusKeepsTrue(c, given, l, SetSlot(l, reply.rec));
    }
  }

  // ----- closing -----

  /** Slots of l' are those of l, or wait for an instance that is not open. */
  ghost predicate SlotsOrNext(l: Leader, l': Leader) {
    && l' == l.(slots := l'.slots, highestClosed := l'.highestClosed) && |l'.slots| == |l.slots|
    && forall k :: 0 <= k < |l.slots| ==> l'.slots[k] == l.slots[k] || l'.slots[k].inst > l.p1HighestOpen
  }

  lemma {:induction false} AdvanceSlots(c: Config, l: Leader)
    requires Core(c, l)
    ensures AdvanceClosed(l).Some? && SlotsOrNext(l, AdvanceClosed(l).value)
    decreases l.highestOpen - l.highestClosed
  {
    hide Core, Slot;
    AdvanceKeeps(c, l);
    HeadPresent(c, l);
    var next := l.highestClosed + 1;
    if l.highestClosed < l.highestOpen && Slot(l, next).inst == next && Slot(l, next).status == Done {
      StepClosed(c, l);
      NextSlots(c, l);
      var l1 := Get(l.(highestClosed := next), next + 1).value;
      AdvanceSlots(c, l1);
    }
  }

  lemma NextSlots(c: Config, l: Leader)
    requires Core(c, l) && l.highestClosed < l.highestOpen && Slot(l, l.highestClosed + 1).status == Done
    ensures Get(l.(highestClosed := l.highestClosed + 1), l.highestClosed + 2).Some?
    ensures SlotsOrNext(l, Get(l.(highestClosed := l.highestClosed + 1), l.highestClosed + 2).value)
  {
    StepClosed(c, l);
    var l0 := l.(highestClosed := l.highestClosed + 1);
    var next := l.highestClosed + 2;
    if next <= l.p1HighestOpen {
      assert Slot(l, next).inst == next;
    }
  }

  lemma SlotsOrNextTrue(c: Config, given: seq<Mapping>, l: Leader, l': Leader)
    requires SlotsTrue(c, given, l) && SlotsOrNext(l, l') && l.highestOpen <= l.p1HighestOpen
    ensures SlotsTrue(c, given, l')
  {
    hide FirstBallot;
    forall k | 0 <= k < |l'.slots|
      ensures RecTrue(c, given, l'.p1HighestOpen, l'.slots[k])
    {
      assert RecTrue(c, given, l.p1HighestOpen, l.slots[k]);
    }
  }

  /** The answer to a phase 2 message always names the key the leader assigned: the assertion never fails. */
  lemma HandlePhase2True(c: Config, given: seq<Mapping>, l: Leader, m: Msg)
    requires LeaderTrue(c, given, l) && m.Phase2? && MsgTrue(c, given, l.p1HighestOpen, m)
    ensures HandlePhase2(c, l, m).Some?
    ensures var (l', sends) := HandlePhase2(c, l, m).value;
            && LeaderTrue(c, given, l') && AllTrue(c, given, l'.p1HighestOpen, sends)
            && l.highestClosed <= l'.highestClosed
            && l' == l.(slots := l'.slots, highestClosed := l'.highestClosed)
  {
    hide FirstBallot, Slot, SetSlot, Get, SlotsTrue, AdvanceClosed, Core;
    LeaderBounds(c, l);
    LeaderOfTrue(c, given, l);
    if m.inst > l.highestClosed {
      RecordMessages(c, given, l, m.inst);
      var r := Slot(l, m.inst);
      assert OnPhase2(c.quorum, r, m).Some?;
      var reply := OnPhase2(c.quorum, r, m).value;
      SetStatus(c, l, m.inst, reply.rec.status);
      var l1 := SetSlot(l, reply.rec);
      StatusKeepsTrue(c, given, l, l1);
      if reply.rec.status == Done && r.status != Done {
        DoneKeepsCore(c, l, m.inst);
        AdvanceSlots(c, l1);
        SlotsOrNextTrue(c, given, l1, AdvanceClosed(l1).value);
      }
    }
    HandlePhase2Keeps(c, l, m);
  }

  lemma DoneKeepsCore(c: Config, l: Leader, inst: nat)
    requires LeaderOk(c, l) && l.highestClosed < inst <= l.highestOpen && Slot(l, inst).inst == inst
    ensures Core(c, SetSlot(l, Slot(l, inst).(status := Done)))
  {
    GetWithin(c, l, inst);
    SetWithin(c, l, Slot(l, inst).(status := Done));
  }
}
