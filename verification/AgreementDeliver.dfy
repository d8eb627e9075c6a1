/** An acceptor's handling of any message keeps the invariant of the many-leader system. */
module AgreementDeliver {
  import opened RingTypes
  import opened Ballots
  import opened AcceptorSpec
  import opened AcceptorFacts
  import opened LeaderRecord
  import opened Agreement
  import opened AgreementInv
  import opened AgreementSteps

  // ----- the records of the acceptor -----

  ghost predicate SlotsHistory(s: Sys, a: nat, acc: Acceptor) {
    forall k :: 0 <= k < |acc.slots| ==> RecHistory(s, a, acc.slots[k])
  }

  lemma RecordOfHistory(s: Sys, a: nat, acc: Acceptor, inst: nat)
    requires |acc.slots| > 0 && SlotsHistory(s, a, acc)
    ensures RecHistory(s, a, RecordOf(acc, inst)) && RecordOf(acc, inst).inst == inst
  {
  }

  lemma PutHistory(s: Sys, a: nat, acc: Acceptor, r: Rec, acc': Acceptor)
    requires |acc.slots| > 0 && SlotsHistory(s, a, acc) && RecHistory(s, a, r) && acc'.slots == Put(acc, r).slots
    ensures SlotsHistory(s, a, acc')
  {
  }

  lemma Phase1History(s: Sys, a: nat, acc: Acceptor, m: Msg)
    requires |acc.slots| > 0 && SlotsHistory(s, a, acc) && m.Phase1? && m.ballot < WORD32 && HandlePhase1(acc, m).Some?
    ensures SlotsHistory(s, a, HandlePhase1(acc, m).value.0)
  {
    var r := RecordOf(acc, m.inst);
    RecordOfHistory(s, a, acc, m.inst);
    PutHistory(s, a, acc, r, Put(acc, r));
    PutHistory(s, a, acc, r.(ballot := m.ballot), Put(acc, r.(ballot := m.ballot)));
  }

  lemma {:induction false} GrantHistory(s: Sys, a: nat, acc: Acceptor, from: nat, last: nat, ballot: nat)
    requires |acc.slots| > 0 && SlotsHistory(s, a, acc) && ballot < WORD32 && GrantRange(acc, from, last, ballot).Some?
    ensures SlotsHistory(s, a, GrantRange(acc, from, last, ballot).value)
    decreases last + 1 - from
  {
    if from <= last {
      var r := RecordOf(acc, from).(ballot := ballot);
      RecordOfHistory(s, a, acc, from);
      PutHistory(s, a, acc, r, Put(acc, r));
      GrantHistory(s, a, Put(acc, r), from + 1, last, ballot);
    }
  }

  lemma {:induction false} BreakHistory(s: Sys, a: nat, acc: Acceptor, from: nat, last: nat, ballot: nat, promises: nat)
    requires |acc.slots| > 0 && SlotsHistory(s, a, acc) && ballot < WORD32
    requires BreakRange(acc, from, last, ballot, promises).Some?
    ensures SlotsHistory(s, a, BreakRange(acc, from, last, ballot, promises).value.0)
    decreases last + 1 - from
  {
    if from <= last {
      Phase1History(s, a, acc, NewPhase1(from, ballot, promises));
      BreakHistory(s, a, HandlePhase1(acc, NewPhase1(from, ballot, promises)).value.0, from + 1, last, ballot, promises);
    }
  }

  /** An accepted record was voted for: the state s already has the vote. */
  lemma Phase2History(s: Sys, a: nat, acc: Acceptor, m: Msg)
    requires AcceptorInv(acc) && SlotsHistory(s, a, acc) && m.Phase2? && WellFormed(m) && m.ballot < WORD32
    requires HandlePhase2(acc, m).Some? && (HandlePhase2(acc, m).value.1 != [] ==> Voted(s, a, At(m.inst, m.ballot), m.key))
    ensures SlotsHistory(s, a, HandlePhase2(acc, m).value.0)
  {
    var r := RecordOf(acc, m.inst);
    RecordOfHistory(s, a, acc, m.inst);
    RecordOfOk(acc, m.inst);
    if VoteOn(r, m.ballot, m.key).value.Refused? {
      PutHistory(s, a, acc, r, Put(acc, r));
    } else {
      VoteKeepsRecord(r, m.ballot, m.key, Max(m.inst, acc.highestSeen));
      var r' := VoteOn(r, m.ballot, m.key).value.rec;
      PutHistory(s, a, acc, r', Put(acc, r'));
    }
  }

  lemma CmdMapHistory(s: Sys, a: nat, acc: Acceptor, m: Msg)
    requires |acc.slots| > 0 && SlotsHistory(s, a, acc) && m.CmdMap? && HandleCmdMap(acc, m).Some?
    requires Known(s, m.inst, Some(Mapping(m.key, m.bytes)))
    ensures SlotsHistory(s, a, HandleCmdMap(acc, m).value)
  {
    RecordOfHistory(s, a, acc, m.inst);
    var r' := MapInto(RecordOf(acc, m.inst), m.key, m.bytes).value;
    PutHistory(s, a, acc, r', Put(acc, r'));
  }

  lemma HandleHistory(s: Sys, a: nat, acc: Acceptor, m: Msg)
    requires AcceptorInv(acc) && SlotsHistory(s, a, acc) && RingMsg(m) && WellFormed(m) && m.ballot < WORD32
    requires Handle(acc, m).Some?
    requires m.Phase2? && Handle(acc, m).value.1 != [] ==> Voted(s, a, At(m.inst, m.ballot), m.key)
    ensures SlotsHistory(s, a, Handle(acc, m).value.0)
  {
    match m
    case Phase1(_, _, _, _, _, _, _) => Phase1History(s, a, acc, m);
    case Phase1Range(from, to, ballot, promises) =>
      if from > acc.highestSeen {
        GrantHistory(s, a, acc.(highestSeen := to), from, to, ballot);
      } else {
        BreakHistory(s, a, acc, from, to, ballot, promises);
      }
    case Phase2(_, _, _, _) => Phase2History(s, a, acc, m);
  }

  // ----- the state after the step -----

  lemma AcceptorsAfter(c: Config, s: Sys, s': Sys, a: nat, acc': Acceptor)
    requires Acceptors(c, s) && a < c.n && s'.accs == s.accs[a := acc']
    requires AcceptorInv(acc') && Extends(s.accs[a], acc')
    ensures Acceptors(c, s')
    ensures forall x :: 0 <= x < c.n ==> Extends(s.accs[x], s'.accs[x])
  {
    hide AcceptorInv, Grows;
    forall x | 0 <= x < c.n
      ensures Extends(s.accs[x], s'.accs[x])
    {
      if x != a {
        ExtendsReflexive(s.accs[x]);
      }
    }
  }

  lemma VoteIsNew(c: Config, s: Sys, s': Sys, p: Packet)
    requires Acceptors(c, s) && Acceptors(c, s') && DeliverStep(c, s, s', p) && PacketOk(c, s, p)
    requires p.msg.Phase2? && Handle(s.accs[p.hop], p.msg).value.1 != []
    ensures NewVote(c, s, s', VoteCast(p.hop, At(p.msg.inst, p.msg.ballot), p.msg.key))
  {
    hide Extends, Voters;
    var acc, m := s.accs[p.hop], p.msg;
    var r := RecordOf(acc, m.inst);
    RecordOfOk(acc, m.inst);
    VoteKeepsRecord(r, m.ballot, m.key, Max(m.inst, acc.highestSeen));
    var r' := VoteOn(r, m.ballot, m.key).value.rec;
    assert s'.accs[p.hop].slots == Put(acc, r').slots;
    assert RecordOf(s'.accs[p.hop], m.inst) == r';
  }

  lemma DeliverExtends(c: Config, s: Sys, s': Sys, p: Packet)
    requires Inv(c, s) && DeliverStep(c, s, s', p)
    ensures Acceptors(c, s') && SysExtends(c, s, s')
  {
    hide Handle, Votes, Records, Reports, Proposals, Leaders, Values, AcceptorInv, Extends, NewVote;
    assert PacketOk(c, s, p);
    assert WellFormed(p.msg) && AcceptorInv(s.accs[p.hop]);
    HandleKeeps(s.accs[p.hop], p.msg);
    var a', out := Handle(s.accs[p.hop], p.msg).value.0, Handle(s.accs[p.hop], p.msg).value.1;
    AcceptorsAfter(c, s, s', p.hop, a');
    if p.msg.Phase2? && out != [] {
      VoteIsNew(c, s, s', p);
    }
  }

  lemma RingBallot(c: Config, s: Sys, p: Packet)
    requires Acceptors(c, s) && PacketOk(c, s, p) && RingMsg(p.msg)
    ensures WellFormed(p.msg) && p.msg.ballot < WORD32
  {
  }

  lemma DeliverRecords(c: Config, s: Sys, s': Sys, p: Packet)
    requires Inv(c, s) && DeliverStep(c, s, s', p) && Acceptors(c, s') && SysExtends(c, s, s')
    ensures Records(c, s')
  {
    hide Handle, Extends, NewVote, RecHistory;
    RingBallot(c, s, p);
    assert s'.values == s.values;
    forall a, k | 0 <= a < c.n && 0 <= k < c.size
      ensures RecHistory(s', a, s.accs[a].slots[k])
    {
      assert RecHistory(s, a, s.accs[a].slots[k]);
      HistoryGrows(s, s', a, s.accs[a].slots[k]);
    }
    assert SlotsHistory(s', p.hop, s.accs[p.hop]);
    HandleHistory(s', p.hop, s.accs[p.hop], p.msg);
    assert forall a :: 0 <= a < c.n && a != p.hop ==> s'.accs[a] == s.accs[a];
  }

  lemma HistoryGrows(s: Sys, s': Sys, a: nat, r: Rec)
    requires RecHistory(s, a, r) && s'.values == s.values && forall v :: v in s.votes ==> v in s'.votes
    ensures RecHistory(s', a, r)
  {
  }

  // ----- the forwarded messages -----

  function Higher(r: Rec, highest: nat, key: Key): (nat, Key) {
    if r.acceptBallot <= highest then (highest, key) else (r.acceptBallot, KeyOf(r.accepted))
  }

  /** A promising acceptor joins a report; the report takes over its accepted key when that is higher. */
  lemma JoinReport(c: Config, s: Sys, s': Sys, at: At, q: set<nat>, highest: nat, key: Key, a: nat)
    requires Acceptors(c, s) && Acceptors(c, s') && Votes(c, s) && Records(c, s) && SysExtends(c, s, s')
    requires s'.votes == s.votes && ReportOk(c, s, at, q, highest, key)
    requires a < c.n && !Gone(s.accs[a], at.inst) && AtLeast(s'.accs[a], at.inst, at.ballot)
    ensures var (h, k) := Higher(RecordOf(s.accs[a], at.inst), highest, key); ReportOk(c, s', at, q + {a}, h, k)
  {
    hide Extends, Grows;
    var r := RecordOf(s.accs[a], at.inst);
    var (h, k) := Higher(r, highest, key);
    ReportStable(c, s, s', at, q, highest, key);
    forall v | v in s'.votes && v.acc in q + {a} && v.at.inst == at.inst && v.at.ballot < at.ballot
      ensures v.at.ballot <= h
    {
      if v.acc == a {
        assert VoteOk(c, s, v);
      }
    }
    if r.acceptBallot > highest {
      AcceptedWasProposed(c, s, a, at.inst);
    }
  }

  lemma AcceptedWasProposed(c: Config, s: Sys, a: nat, inst: nat)
    requires Acceptors(c, s) && Votes(c, s) && Records(c, s) && a < c.n
    requires RecordOf(s.accs[a], inst).acceptBallot > 0
    ensures var r := RecordOf(s.accs[a], inst);
            && At(inst, r.acceptBallot) in s.proposals && s.proposals[At(inst, r.acceptBallot)] == KeyOf(r.accepted)
            && InstKey(inst, KeyOf(r.accepted)) in s.values
            && s.values[InstKey(inst, KeyOf(r.accepted))] == BytesOf(r.accepted)
  {
    var r := RecordOf(s.accs[a], inst);
    RecordOfOk(s.accs[a], inst);
    var k := inst % c.size;
    assert r == s.accs[a].slots[k] && RecHistory(s, a, s.accs[a].slots[k]);
    assert VoteOk(c, s, VoteCast(a, At(inst, r.acceptBallot), r.accepted.value.key));
  }

  /** One forwarded phase 1 message, whether it came as such or out of a range. */
  lemma ForwardOk(c: Config, s: Sys, s': Sys, p: Packet, min: Msg, m: Msg)
    requires Acceptors(c, s) && Acceptors(c, s') && Votes(c, s) && Records(c, s) && SysExtends(c, s, s')
    requires s'.votes == s.votes && s'.values == s.values && p.hop < c.n
    requires min.Phase1? && PacketOk(c, s, Packet(min, p.hop, p.passed)) && Counter(p.msg) == min.promises
    requires !Gone(s.accs[p.hop], min.inst) && m == ForwardPhase1(RecordOf(s.accs[p.hop], min.inst), min)
    requires min.ballot >= RecordOf(s.accs[p.hop], min.inst).ballot ==> AtLeast(s'.accs[p.hop], min.inst, min.ballot)
    ensures PacketOk(c, s', Forwarded(p, m))
  {
    hide ReportOk, Extends, Grows, SysExtends, Votes, Records;
    var a, at := p.hop, At(min.inst, min.ballot);
    var r := RecordOf(s.accs[a], min.inst);
    RecordOfOk(s.accs[a], min.inst);
    if min.ballot < r.ballot {
      ReportStable(c, s, s', at, p.passed, min.highestAccepted, min.key);
      RecordBallot(c, s, a, min.inst);
    } else {
      JoinReport(c, s, s', at, p.passed, min.highestAccepted, min.key, a);
      assert |p.passed + {a}| == |p.passed| + 1;
      if r.acceptBallot > min.highestAccepted {
        AcceptedWasProposed(c, s, a, min.inst);
      } else {
        assert min.highestAccepted > 0 ==> InstKey(min.inst, min.key) in s'.values;
      }
    }
  }

  lemma RecordBallot(c: Config, s: Sys, a: nat, inst: nat)
    requires Acceptors(c, s) && Records(c, s) && a < c.n
    ensures RecordOf(s.accs[a], inst).ballot < WORD32
  {
    assert RecHistory(s, a, s.accs[a].slots[inst % c.size]);
  }

  lemma SendPhase1(c: Config, s: Sys, s': Sys, p: Packet)
    requires Inv(c, s) && DeliverStep(c, s, s', p) && Acceptors(c, s') && SysExtends(c, s, s') && p.msg.Phase1?
    ensures forall q :: q in s'.net && q !in s.net ==> PacketOk(c, s', q)
  {
    hide PacketOk, SysExtends, Votes, Records, Reports, Proposals, Leaders, Values, AcceptorInv;
    assert PacketOk(c, s, p);
    RingBallot(c, s, p);
    var acc := s.accs[p.hop];
    Phase1Facts(acc, p.msg);
    var m := HandlePhase1(acc, p.msg).value.1;
    assert Packet(p.msg, p.hop, p.passed) == p;
    ForwardOk(c, s, s', p, p.msg, m);
  }

  lemma PieceOk(c: Config, s: Sys, p: Packet, i: nat)
    requires Acceptors(c, s) && PacketOk(c, s, p) && p.msg.Phase1Range? && p.msg.from <= i <= p.msg.to
    ensures PacketOk(c, s, Packet(NewPhase1(i, p.msg.ballot, p.msg.promises), p.hop, p.passed))
  {
    hide ReportOk;
    assert ReportOk(c, s, At(i, p.msg.ballot), p.passed, 0, NULL_KEY);
  }

  lemma SendBroken(c: Config, s: Sys, s': Sys, p: Packet)
    requires Inv(c, s) && DeliverStep(c, s, s', p) && Acceptors(c, s') && SysExtends(c, s, s')
    requires p.msg.Phase1Range? && p.msg.from <= s.accs[p.hop].highestSeen
    ensures forall q :: q in s'.net && q !in s.net ==> PacketOk(c, s', q)
  {
    hide PacketOk, SysExtends, Votes, Records, Reports, Proposals, Leaders, Values, AcceptorInv, BreakRange,
      ForwardPhase1, Extends;
    assert PacketOk(c, s, p);
    RingBallot(c, s, p);
    var acc, m := s.accs[p.hop], p.msg;
    BreakFacts(acc, m.from, m.to, m.ballot, m.promises);
    forall q | q in s'.net && q !in s.net
      ensures PacketOk(c, s', q)
    {
      var o :| o in Handle(acc, m).value.1 && q == Forwarded(p, o);
      PieceOk(c, s, p, o.inst);
      ForwardOk(c, s, s', p, NewPhase1(o.inst, m.ballot, m.promises), o);
    }
  }

  lemma SendGranted(c: Config, s: Sys, s': Sys, p: Packet)
    requires Inv(c, s) && DeliverStep(c, s, s', p) && Acceptors(c, s') && SysExtends(c, s, s')
    requires p.msg.Phase1Range? && p.msg.from > s.accs[p.hop].highestSeen
    ensures forall q :: q in s'.net && q !in s.net ==> PacketOk(c, s', q)
  {
    hide SysExtends, Votes, Records, Reports, Proposals, Leaders, Values, AcceptorInv, GrantRange, Extends, ReportOk;
    assert PacketOk(c, s, p);
    var acc, m := s.accs[p.hop], p.msg;
    GrantAllFacts(acc, m);
    forall i | m.from <= i <= m.to
      ensures ReportOk(c, s', At(i, m.ballot), p.passed + {p.hop}, 0, NULL_KEY)
    {
      assert ReportOk(c, s, At(i, m.ballot), p.passed, 0, NULL_KEY);
      RecordOfOk(acc, i);
      assert Higher(RecordOf(acc, i), 0, NULL_KEY) == (0, NULL_KEY);
      JoinReport(c, s, s', At(i, m.ballot), p.passed, 0, NULL_KEY, p.hop);
    }
    assert |p.passed + {p.hop}| == |p.passed| + 1;
  }

  lemma SendVoted(c: Config, s: Sys, s': Sys, p: Packet)
    requires Inv(c, s) && DeliverStep(c, s, s', p) && Acceptors(c, s') && SysExtends(c, s, s') && p.msg.Phase2?
    ensures forall q :: q in s'.net && q !in s.net ==> PacketOk(c, s', q)
  {
    hide SysExtends, Votes, Records, Reports, Proposals, Leaders, Values, AcceptorInv, Extends, ReportOk;
    assert PacketOk(c, s, p);
    var m := p.msg;
    forall q | q in s'.net && q !in s.net
      ensures PacketOk(c, s', q)
    {
      assert q == Packet(Phase2(m.inst, m.ballot, m.accepts + 1, m.key), p.hop + 1, p.passed + {p.hop});
      forall a | 0 <= a < p.hop + 1
        ensures a in q.passed && Voted(s', a, At(m.inst, m.ballot), m.key)
      {
        assert a < p.hop ==> Voted(s, a, At(m.inst, m.ballot), m.key);
      }
    }
  }

  lemma DeliverKeeps(c: Config, s: Sys, s': Sys, p: Packet)
    requires Inv(c, s) && DeliverStep(c, s, s', p)
    ensures Inv(c, s')
  {
    hide PacketOk, SysExtends, Votes, Records, Reports, Proposals, Leaders, Values, AcceptorInv, Handle,
      Packets, Chosen;
    DeliverExtends(c, s, s', p);
    DeliverRecords(c, s, s', p);
    if p.msg.Phase1? {
      SendPhase1(c, s, s', p);
    } else if p.msg.Phase2? {
      SendVoted(c, s, s', p);
    } else if p.msg.from > s.accs[p.hop].highestSeen {
      SendGranted(c, s, s', p);
    } else {
      SendBroken(c, s, s', p);
    }
    PacketsKept(c, s, s');
    VotesKept(c, s, s');
    ReportsKept(c, s, s');
    LeadersKept(s, s');
    ClosedKept(c, s, s');
  }

  lemma LearnMappingKeeps(c: Config, s: Sys, s': Sys, acc: nat, p: Packet)
    requires Inv(c, s) && LearnMappingStep(c, s, s', acc, p)
    ensures Inv(c, s')
  {
    hide PacketOk, SysExtends, Votes, Reports, Proposals, Leaders, Values, AcceptorInv, HandleCmdMap, Extends,
      RecHistory, Chosen;
    MappingPacket(c, s, p);
    CmdMapFacts(s.accs[acc], p.msg);
    AcceptorsAfter(c, s, s', acc, HandleCmdMap(s.accs[acc], p.msg).value);
    SameHistory(c, s, s');
    assert SlotsHistory(s, acc, s.accs[acc]);
    CmdMapHistory(s, acc, s.accs[acc], p.msg);
    forall a, k | 0 <= a < c.n && 0 <= k < c.size
      ensures RecHistory(s', a, s'.accs[a].slots[k])
    {
      assert RecHistory(s, a, s'.accs[a].slots[k]);
      HistoryGrows(s, s', a, s'.accs[a].slots[k]);
    }
    PacketsKept(c, s, s');
    VotesKept(c, s, s');
    ReportsKept(c, s, s');
    LeadersKept(s, s');
    ClosedKept(c, s, s');
  }

  lemma MappingPacket(c: Config, s: Sys, p: Packet)
    requires Acceptors(c, s) && Packets(c, s) && p in s.net && p.msg.CmdMap?
    ensures WellFormed(p.msg) && Known(s, p.msg.inst, Some(Mapping(p.msg.key, p.msg.bytes)))
  {
    assert PacketOk(c, s, p);
  }

  lemma SameHistory(c: Config, s: Sys, s': Sys)
    requires Acceptors(c, s) && Acceptors(c, s') && s' == s.(accs := s'.accs)
    requires forall a :: 0 <= a < c.n ==> Extends(s.accs[a], s'.accs[a])
    ensures SysExtends(c, s, s')
  {
    hide Extends;
  }
}
