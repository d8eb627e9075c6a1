/** The leaders' steps keep the invariant of the many-leader system. */
module AgreementLeaders {
  import opened RingTypes
  import opened Ballots
  import opened AcceptorSpec
  import opened AcceptorFacts
  import opened LeaderRecord
  import opened Agreement
  import opened AgreementInv
  import opened AgreementSteps
  import opened AgreementDeliver

  /** A leader's step leaves acceptors and votes alone; the rest it must answer for. */
  lemma LeaderStep(c: Config, s: Sys, s': Sys)
    requires Inv(c, s) && s'.accs == s.accs && s'.votes == s.votes
    requires forall at :: at in s.proposals ==> at in s'.proposals && s'.proposals[at] == s.proposals[at]
    requires forall ik :: ik in s.values ==> ik in s'.values && s'.values[ik] == s.values[ik]
    requires forall ik :: ik in s.closed ==> ik in s'.closed && s'.closed[ik] == s.closed[ik]
    requires Acceptors(c, s') && forall p :: p in s'.net && p !in s.net ==> PacketOk(c, s', p)
    requires forall at :: at in s'.reports && !(at in s.reports && s.reports[at] == s'.reports[at]) ==> ReportEntryOk(c, s', at)
    requires Leaders(s') && Proposals(s') && Values(s') && Closed(c, s')
    ensures Inv(c, s')
  {
    hide PacketOk, Closed, SysExtends, ReportEntryOk, Leaders, Proposals, Values, RecHistory, VoteOk, ReportOk;
    SameNodesExtend(c, s, s');
    VotesKept(c, s, s');
    RecordsKept(c, s, s');
    PacketsKept(c, s, s');
    ReportsKept(c, s, s');
  }

  lemma SameAcceptors(c: Config, s: Sys, s': Sys)
    requires Acceptors(c, s) && s'.accs == s.accs
    ensures Acceptors(c, s')
  {
  }

  lemma FirstBallotFacts(l: nat)
    requires l < WORD16
    ensures Owner(FirstBallot(l)) == l && 0 < FirstBallot(l) < WORD32
  {
    hide MakeFirstBallot;
    FirstBallotIsMine(l / 256, l % 256);
  }

  /** A message that has visited no acceptor claims nothing. */
  lemma FreshReport(c: Config, s: Sys, at: At)
    requires Acceptors(c, s)
    ensures ReportOk(c, s, at, {}, 0, NULL_KEY)
  {
  }

  lemma FreshPhase1(c: Config, s: Sys, r: MRec)
    requires Acceptors(c, s) && r.inst > 0 && 0 < r.ballot < WORD32
    ensures PacketOk(c, s, Packet(Phase1Msg(r), 0, {}))
  {
    hide ReportOk;
    FreshReport(c, s, At(r.inst, r.ballot));
  }

  lemma FreshRange(c: Config, s: Sys, from: nat, last: nat, ballot: nat)
    requires Acceptors(c, s) && 0 < from <= last && 0 < ballot == FirstBallot(Owner(ballot)) < WORD32
    ensures PacketOk(c, s, Packet(Phase1Range(from, last, ballot, 0), 0, {}))
  {
    hide ReportOk, FirstBallot, Owner;
    forall i | from <= i <= last
      ensures ReportOk(c, s, At(i, ballot), {}, 0, NULL_KEY)
    {
      FreshReport(c, s, At(i, ballot));
    }
  }

  lemma FreshPhase2(c: Config, s: Sys, o: Own, r: MRec)
    requires Acceptors(c, s) && LeaderOk(s, o, r) && (r.status == P2Pending || r.status == Done)
    ensures PacketOk(c, s, Packet(Phase2Msg(r), 0, {})) && PacketOk(c, s, Packet(MappingMsg(r), 0, {}))
  {
    hide FirstBallot, Owner;
  }

  lemma FreshAcceptance(c: Config, s: Sys, inst: nat, key: Key)
    requires Acceptors(c, s) && inst > 0 && InstKey(inst, key) in s.closed
    ensures PacketOk(c, s, Packet(Acceptance(inst, key), 0, {}))
  {
  }

  // ----- steps that only send -----

  lemma RepeatPhase1Keeps(c: Config, s: Sys, s': Sys, l: nat, inst: nat)
    requires Inv(c, s) && RepeatPhase1Step(c, s, s', l, inst)
    ensures Inv(c, s')
  {
    hide PacketOk, Chosen, SysExtends, Votes, Records, Reports, Proposals, Leaders, Values, AcceptorInv,
      Packets, ReportEntryOk, LeaderOk;
    var r := s.leaders[Own(l, inst)];
    LeaderFacts(s, Own(l, inst));
    SameAcceptors(c, s, s');
    FreshPhase1(c, s', r);
    LeadersKept(s, s');
    ClosedKept(c, s, s');
    LeaderStep(c, s, s');
  }

  lemma LeaderFacts(s: Sys, o: Own)
    requires Leaders(s) && o in s.leaders
    ensures LeaderOk(s, o, s.leaders[o])
    ensures s.leaders[o].inst == o.inst > 0 && 0 < s.leaders[o].ballot < WORD32 && Owner(s.leaders[o].ballot) == o.leader
  {
  }

  lemma RepeatPhase2Keeps(c: Config, s: Sys, s': Sys, l: nat, inst: nat)
    requires Inv(c, s) && RepeatPhase2Step(c, s, s', l, inst)
    ensures Inv(c, s')
  {
    hide PacketOk, Chosen, SysExtends, Votes, Records, Reports, Proposals, Leaders, Values, AcceptorInv,
      Packets, ReportEntryOk;
    var o := Own(l, inst);
    LeaderFacts(s, o);
    LeadersKept(s, s');
    LeaderFacts(s', o);
    SameAcceptors(c, s, s');
    FreshPhase2(c, s', o, s'.leaders[o]);
    ClosedKept(c, s, s');
    LeaderStep(c, s, s');
  }

  // ----- phase 1 -----

  lemma OpenedRecord(s: Sys, s': Sys, l: nat, o: Own)
    requires Leaders(s) && Proposals(s) && s'.proposals == s.proposals && s'.reports == s.reports && l < WORD16
    requires o.leader == l && o.inst > 0 && o !in s.leaders
    ensures LeaderOk(s', o, MRec(o.inst, P1Pending, FirstBallot(l), NULL_KEY, None))
  {
    hide FirstBallot, Owner;
    FirstBallotFacts(l);
    ProposalAt(s, At(o.inst, FirstBallot(l)));
    ReportAt(s, At(o.inst, FirstBallot(l)));
  }

  lemma LeaderSame(s: Sys, s': Sys, o: Own, r: MRec)
    requires LeaderOk(s, o, r) && s'.proposals == s.proposals && s'.reports == s.reports && s'.values == s.values
    ensures LeaderOk(s', o, r)
  {
    hide FirstBallot, Owner;
  }

  lemma ProposalSame(s: Sys, s': Sys, at: At)
    requires at in s.proposals && ProposalOk(s, at) && s'.proposals == s.proposals && s'.reports == s.reports
    requires RecOfLeader(s', Owner(at.ballot), at.inst).ballot >= RecOfLeader(s, Owner(at.ballot), at.inst).ballot
    ensures ProposalOk(s', at)
  {
    hide Owner, RecOfLeader;
  }

  lemma OpenRangeLeaders(c: Config, s: Sys, s': Sys, l: nat, from: nat, last: nat)
    requires Inv(c, s) && OpenRangeStep(c, s, s', l, from, last)
    ensures Leaders(s') && Proposals(s') && Values(s')
  {
    hide FirstBallot, Owner, KeyOwner, Votes, Records, Reports, Packets, Acceptors, LeaderOk, ProposalOk, Closed;
    forall at | at in s'.reports
      ensures ReportOwned(s', at)
    {
      assert ReportOwned(s, at);
    }
    forall o | o in s'.leaders
      ensures LeaderOk(s', o, s'.leaders[o])
    {
      if o in s.leaders {
        LeaderSame(s, s', o, s.leaders[o]);
      } else {
        assert s'.leaders[o] == MRec(o.inst, P1Pending, FirstBallot(l), NULL_KEY, None);
        OpenedRecord(s, s', l, o);
      }
    }
    forall at | at in s'.proposals
      ensures ProposalOk(s', at)
    {
      ProposalSame(s, s', at);
    }
    forall ik | ik in s'.values
      ensures ValueOwned(s', ik)
    {
      assert ValueOwned(s, ik);
    }
  }

  lemma OpenRangeKeeps(c: Config, s: Sys, s': Sys, l: nat, from: nat, last: nat)
    requires Inv(c, s) && OpenRangeStep(c, s, s', l, from, last)
    ensures Inv(c, s')
  {
    hide PacketOk, Chosen, SysExtends, Votes, Records, Reports, Proposals, Leaders, Values, AcceptorInv,
      Packets, ReportEntryOk, FirstBallot, Owner;
    OpenRangeLeaders(c, s, s', l, from, last);
    FirstBallotFacts(l);
    SameAcceptors(c, s, s');
    FreshRange(c, s', from, last, FirstBallot(l));
    ClosedKept(c, s, s');
    LeaderStep(c, s, s');
  }

  lemma ProposalAt(s: Sys, at: At)
    requires Proposals(s)
    ensures at in s.proposals ==> ProposalOk(s, at)
  {
  }

  lemma ReportAt(s: Sys, at: At)
    requires Leaders(s)
    ensures at in s.reports ==> ReportOwned(s, at)
  {
  }

  lemma ValueAt(s: Sys, ik: InstKey)
    requires Values(s)
    ensures ik in s.values ==> ValueOwned(s, ik)
  {
  }

  /** A leader's own ballots on an instance stop at the one in its record. */
  lemma ProposedBelow(s: Sys, o: Own, b: nat)
    requires Leaders(s) && Proposals(s) && o in s.leaders && Owner(b) == o.leader && b > s.leaders[o].ballot
    ensures At(o.inst, b) !in s.proposals && At(o.inst, b) !in s.reports
  {
    hide Owner;
    ProposalAt(s, At(o.inst, b));
    ReportAt(s, At(o.inst, b));
  }

  lemma RaiseBeats(current: nat, beat: nat)
    requires current <= beat < WORD32 && Seq(beat) < 0xFFFF
    ensures current < RaiseBallot(current, beat) < WORD32 && Owner(RaiseBallot(current, beat)) == Owner(current)
  {
    hide RaiseBallot, Seq, Owner;
    RaiseExceeds(current, beat);
    RaiseHalves(current, beat);
  }

  lemma RestartPhase1Keeps(c: Config, s: Sys, s': Sys, l: nat, inst: nat, beat: nat)
    requires Inv(c, s) && RestartPhase1Step(c, s, s', l, inst, beat)
    ensures Inv(c, s')
  {
    hide PacketOk, Chosen, SysExtends, Votes, Records, Reports, Proposals, Leaders, Values, AcceptorInv,
      Packets, ReportEntryOk, RaiseBallot, Owner, Seq, FirstBallot;
    var o := Own(l, inst);
    var r := s.leaders[o];
    LeaderFacts(s, o);
    RaiseBeats(r.ballot, beat);
    var r' := s'.leaders[o];
    ProposedBelow(s, o, r'.ballot);
    ProposalsReported(s);
    LeaderChange(c, s, s', o, r');
    SameAcceptors(c, s, s');
    FreshPhase1(c, s', r');
    ClosedKept(c, s, s');
    LeaderStep(c, s, s');
  }

  lemma ProposalsReported(s: Sys)
    requires Proposals(s)
    ensures forall at :: at in s.proposals ==> at in s.reports
  {
    hide Owner;
    forall at | at in s.proposals
      ensures at in s.reports
    {
      assert ProposalOk(s, at);
    }
  }

  /** Too few promises: the ballot is raised over any promise reported, and phase 1 repeated. */
  lemma RetryPhase1Keeps(c: Config, s: Sys, s': Sys, l: nat, p: Packet)
    requires Inv(c, s) && FinishPhase1Step(c, s, s', l, p) && p.msg.promises < c.quorum
    ensures Inv(c, s')
  {
    hide PacketOk, Chosen, SysExtends, Votes, Records, Reports, Proposals, Leaders, Values, AcceptorInv,
      Packets, ReportEntryOk, RaiseBallot, Owner, Seq, FirstBallot;
    var o := Own(l, p.msg.inst);
    var r := s.leaders[o];
    LeaderFacts(s, o);
    Phase1PacketFacts(c, s, p);
    if p.msg.highestPromised != 0 {
      RaiseBeats(r.ballot, p.msg.highestPromised);
      ProposedBelow(s, o, RaiseBallot(r.ballot, p.msg.highestPromised));
    }
    var r' := s'.leaders[o];
    assert LeaderOk(s', o, r');
    ProposalsReported(s);
    LeaderChange(c, s, s', o, r');
    SameAcceptors(c, s, s');
    FreshPhase1(c, s', r');
    ClosedKept(c, s, s');
    LeaderStep(c, s, s');
  }

  lemma Phase1PacketFacts(c: Config, s: Sys, p: Packet)
    requires Acceptors(c, s) && Packets(c, s) && p in s.net && p.msg.Phase1?
    ensures p.msg.inst > 0 && p.msg.promises == |p.passed| && p.msg.highestAccepted <= p.msg.ballot
    ensures ReportOk(c, s, At(p.msg.inst, p.msg.ballot), p.passed, p.msg.highestAccepted, p.msg.key)
    ensures p.msg.highestAccepted > 0 ==>
      && At(p.msg.inst, p.msg.highestAccepted) in s.proposals
      && s.proposals[At(p.msg.inst, p.msg.highestAccepted)] == p.msg.key
      && InstKey(p.msg.inst, p.msg.key) in s.values && s.values[InstKey(p.msg.inst, p.msg.key)] == p.msg.bytes
    ensures p.msg.highestPromised == 0 || p.msg.ballot < p.msg.highestPromised < WORD32
  {
    assert PacketOk(c, s, p);
  }

  /** Enough promises: the record after phase 1 follows the value-choice rule. */
  lemma PromisedRecord(c: Config, s: Sys, s': Sys, l: nat, p: Packet)
    requires Inv(c, s) && FinishPhase1Step(c, s, s', l, p) && p.msg.promises >= c.quorum
    ensures LeaderOk(s', Own(l, p.msg.inst), s'.leaders[Own(l, p.msg.inst)])
    ensures s'.leaders[Own(l, p.msg.inst)].ballot == s.leaders[Own(l, p.msg.inst)].ballot == p.msg.ballot
    ensures s.leaders[Own(l, p.msg.inst)].value.Some? ==> s'.leaders[Own(l, p.msg.inst)].value.Some?
    ensures At(p.msg.inst, p.msg.ballot) !in s.proposals && p.msg.highestAccepted < p.msg.ballot
    ensures At(p.msg.inst, p.msg.ballot) in s'.proposals ==>
      && (p.msg.highestAccepted == 0 || p.msg.key == s'.proposals[At(p.msg.inst, p.msg.ballot)])
      && s'.proposals[At(p.msg.inst, p.msg.ballot)] != NULL_KEY
  {
    hide PacketOk, Votes, Records, Reports, Values, AcceptorInv, Packets, RaiseBallot, Owner, Seq, FirstBallot,
      ReportOk;
    Phase1PacketFacts(c, s, p);
    LeaderFacts(s, Own(l, p.msg.inst));
    if p.msg.highestAccepted > 0 {
      assert ProposalOk(s, At(p.msg.inst, p.msg.highestAccepted));
    }
  }

  lemma PromisedLeaders(c: Config, s: Sys, s': Sys, l: nat, p: Packet)
    requires Inv(c, s) && FinishPhase1Step(c, s, s', l, p) && p.msg.promises >= c.quorum
    ensures Leaders(s') && Proposals(s') && Values(s')
  {
    hide PacketOk, Chosen, SysExtends, Votes, Records, Reports, Leaders, Values, AcceptorInv, Packets,
      RaiseBallot, Owner, Seq, FirstBallot, ReportOk, LeaderOk, Proposals;
    var o, at := Own(l, p.msg.inst), At(p.msg.inst, p.msg.ballot);
    PromisedRecord(c, s, s', l, p);
    LeaderFacts(s, o);
    ProposalsReported(s);
    assert forall x :: x in s'.proposals && x !in s.proposals ==> x == at && ProposalOk(s', x);
    LeaderChange(c, s, s', o, s'.leaders[o]);
  }

  lemma PromisedReport(c: Config, s: Sys, s': Sys, l: nat, p: Packet)
    requires Inv(c, s) && FinishPhase1Step(c, s, s', l, p) && p.msg.promises >= c.quorum
    ensures Acceptors(c, s') && SysExtends(c, s, s')
    ensures At(p.msg.inst, p.msg.ballot) in s'.reports && ReportEntryOk(c, s', At(p.msg.inst, p.msg.ballot))
  {
    hide PacketOk, Chosen, Votes, Records, Reports, Leaders, Values, AcceptorInv, Packets, RaiseBallot, Owner,
      Seq, FirstBallot, ReportOk, LeaderOk, Proposals, OnPhase1;
    var at := At(p.msg.inst, p.msg.ballot);
    PromisedRecord(c, s, s', l, p);
    Phase1PacketFacts(c, s, p);
    SameNodesExtend(c, s, s');
    ReportStable(c, s, s', at, p.passed, p.msg.highestAccepted, p.msg.key);
  }

  lemma PromisedKeeps(c: Config, s: Sys, s': Sys, l: nat, p: Packet)
    requires Inv(c, s) && FinishPhase1Step(c, s, s', l, p) && p.msg.promises >= c.quorum
    ensures Inv(c, s')
  {
    hide PacketOk, Chosen, SysExtends, Votes, Records, Reports, Leaders, Values, AcceptorInv, Packets,
      RaiseBallot, Owner, Seq, FirstBallot, ReportEntryOk, LeaderOk, Proposals;
    var o := Own(l, p.msg.inst);
    PromisedRecord(c, s, s', l, p);
    PromisedLeaders(c, s, s', l, p);
    PromisedReport(c, s, s', l, p);
    LeaderFacts(s, o);
    if s'.leaders[o].status == P2Pending {
      FreshPhase2(c, s', o, s'.leaders[o]);
    }
    ClosedKept(c, s, s');
    LeaderStep(c, s, s');
  }

  lemma FinishRangeRetry(c: Config, s: Sys, s': Sys, l: nat, p: Packet)
    requires Inv(c, s) && FinishRangeStep(c, s, s', l, p) && p.msg.promises < c.quorum
    ensures Inv(c, s')
  {
    hide PacketOk, Chosen, SysExtends, Votes, Records, Reports, Proposals, Leaders, Values, AcceptorInv,
      Packets, ReportEntryOk, FirstBallot, Owner;
    RangePacketFacts(c, s, p);
    SameAcceptors(c, s, s');
    FreshRange(c, s', p.msg.from, p.msg.to, p.msg.ballot);
    LeadersKept(s, s');
    ClosedKept(c, s, s');
    LeaderStep(c, s, s');
  }

  lemma RangePacketFacts(c: Config, s: Sys, p: Packet)
    requires Acceptors(c, s) && Packets(c, s) && p in s.net && p.msg.Phase1Range?
    ensures 0 < p.msg.from <= p.msg.to && p.msg.promises == |p.passed|
    ensures 0 < p.msg.ballot == FirstBallot(Owner(p.msg.ballot)) < WORD32
    ensures RangeReports(c, s, p.msg, p.passed)
  {
    hide FirstBallot, Owner;
    assert PacketOk(c, s, p);
  }

  lemma RangeRecord(s: Sys, s': Sys, m: Msg, q: set<nat>, o: Own)
    requires m.Phase1Range? && o in s.leaders && o in s'.leaders && LeaderOk(s, o, s.leaders[o])
    requires s'.proposals == s.proposals && s'.values == s.values
    requires s'.reports == s.reports + Unreported(m.from, m.to, m.ballot, q)
    requires s'.leaders[o] == s.leaders[o] || (
      && s.leaders[o].status == P1Pending && s.leaders[o].ballot == m.ballot == FirstBallot(o.leader)
      && s'.leaders[o] == s.leaders[o].(status := P1Done) && m.from <= o.inst <= m.to)
    requires m.ballot == FirstBallot(Owner(m.ballot))
    requires s'.leaders[o] == s.leaders[o] ==> o.leader != Owner(m.ballot) || !(m.from <= o.inst <= m.to)
    ensures LeaderOk(s', o, s'.leaders[o])
  {
    hide FirstBallot, Owner;
    var at := At(o.inst, s.leaders[o].ballot);
    if s.leaders[o].status == P1Done {
      assert s'.reports[at] == s.reports[at];
    }
  }

  lemma RangeReportsOwned(c: Config, s: Sys, s': Sys, l: nat, p: Packet)
    requires Inv(c, s) && FinishRangeStep(c, s, s', l, p) && p.msg.promises >= c.quorum
    ensures forall at :: at in s'.reports ==> ReportOwned(s', at)
  {
    hide PacketOk, FirstBallot, Owner, Votes, Records, Reports, Packets, AcceptorInv, LeaderOk, Closed, Values, Proposals;
    forall at | at in s'.reports
      ensures ReportOwned(s', at)
    {
      ReportAt(s, at);
    }
  }

  lemma RangeRecords(c: Config, s: Sys, s': Sys, l: nat, p: Packet)
    requires Inv(c, s) && FinishRangeStep(c, s, s', l, p) && p.msg.promises >= c.quorum
    ensures forall o :: o in s'.leaders ==> LeaderOk(s', o, s'.leaders[o])
  {
    hide PacketOk, FirstBallot, Owner, Votes, Records, Reports, Packets, AcceptorInv, RangeReports, LeaderOk, Closed,
      Values, Proposals, ReportOwned;
    RangePacketFacts(c, s, p);
    forall o | o in s'.leaders
      ensures LeaderOk(s', o, s'.leaders[o])
    {
      LeaderFacts(s, o);
      RangeRecord(s, s', p.msg, p.passed, o);
    }
  }

  lemma FinishRangeLeaders(c: Config, s: Sys, s': Sys, l: nat, p: Packet)
    requires Inv(c, s) && FinishRangeStep(c, s, s', l, p) && p.msg.promises >= c.quorum
    ensures Leaders(s') && Proposals(s') && Values(s')
  {
    hide PacketOk, FirstBallot, Owner, KeyOwner, Votes, Records, Reports, Packets, AcceptorInv, RangeReports,
      LeaderOk, ProposalOk, Closed;
    RangePacketFacts(c, s, p);
    RangeReportsOwned(c, s, s', l, p);
    RangeRecords(c, s, s', l, p);
    hide ReportOwned;
    forall at | at in s'.proposals
      ensures ProposalOk(s', at)
    {
      RangeProposal(c, s, s', l, p, at);
    }
    forall ik | ik in s'.values
      ensures ValueOwned(s', ik)
    {
      assert ValueOwned(s, ik);
    }
  }

  lemma RangeProposal(c: Config, s: Sys, s': Sys, l: nat, p: Packet, at: At)
    requires Inv(c, s) && FinishRangeStep(c, s, s', l, p) && p.msg.promises >= c.quorum && at in s.proposals
    ensures ProposalOk(s', at)
  {
    hide PacketOk, FirstBallot, Owner, KeyOwner, Votes, Records, Reports, Packets, AcceptorInv, RangeReports,
      LeaderOk, Closed, Values;
    ProposalAt(s, at);
    if p.msg.from <= at.inst <= p.msg.to {
      OwnBallot(s, l, p.msg, at);
    }
    assert s'.reports[at] == s.reports[at];
    assert RecOfLeader(s', Owner(at.ballot), at.inst).ballot == RecOfLeader(s, Owner(at.ballot), at.inst).ballot;
  }

  /** While a record waits for phase 1 nothing was proposed at its ballot. */
  lemma OwnBallot(s: Sys, l: nat, m: Msg, at: At)
    requires m.Phase1Range? && Leaders(s) && at in s.proposals && m.from <= at.inst <= m.to
    requires Own(l, at.inst) in s.leaders && s.leaders[Own(l, at.inst)].status == P1Pending
    requires s.leaders[Own(l, at.inst)].ballot == m.ballot
    ensures at.ballot != m.ballot
  {
    hide FirstBallot, Owner;
    assert LeaderOk(s, Own(l, at.inst), s.leaders[Own(l, at.inst)]);
  }

  lemma FinishRangeKeeps(c: Config, s: Sys, s': Sys, l: nat, p: Packet)
    requires Inv(c, s) && FinishRangeStep(c, s, s', l, p) && p.msg.promises >= c.quorum
    ensures Inv(c, s')
  {
    hide PacketOk, Chosen, SysExtends, Votes, Records, Reports, Proposals, Leaders, Values, AcceptorInv,
      Packets, FirstBallot, Owner, ReportOk;
    FinishRangeLeaders(c, s, s', l, p);
    RangePacketFacts(c, s, p);
    SameNodesExtend(c, s, s');
    forall at | at in s'.reports && !(at in s.reports && s.reports[at] == s'.reports[at])
      ensures ReportEntryOk(c, s', at)
    {
      assert at.ballot == p.msg.ballot && p.msg.from <= at.inst <= p.msg.to;
      ReportStable(c, s, s', at, p.passed, 0, NULL_KEY);
    }
    ClosedKept(c, s, s');
    LeaderStep(c, s, s');
  }

  // ----- phase 2 -----

  lemma StartPhase2Record(c: Config, s: Sys, s': Sys, l: nat, inst: nat, key: Key, bytes: Bytes)
    requires Inv(c, s) && StartPhase2Step(c, s, s', l, inst, key, bytes)
    ensures InstKey(inst, key) !in s.values && At(inst, s.leaders[Own(l, inst)].ballot) !in s.proposals
    ensures LeaderOk(s', Own(l, inst), s'.leaders[Own(l, inst)])
    ensures ProposalOk(s', At(inst, s.leaders[Own(l, inst)].ballot)) && ValueOwned(s', InstKey(inst, key))
  {
    hide Votes, Records, Reports, AcceptorInv, Packets, Owner, FirstBallot, Acceptors, Closed, KeyOwner,
      Proposals, Leaders, Values;
    LeaderFacts(s, Own(l, inst));
    ValueAt(s, InstKey(inst, key));
  }

  lemma StartPhase2Keeps(c: Config, s: Sys, s': Sys, l: nat, inst: nat, key: Key, bytes: Bytes)
    requires Inv(c, s) && StartPhase2Step(c, s, s', l, inst, key, bytes)
    ensures Inv(c, s')
  {
    hide PacketOk, Chosen, SysExtends, Votes, Records, Reports, Proposals, Leaders, Values, AcceptorInv,
      Packets, Owner, FirstBallot, LeaderOk, ProposalOk, ValueOwned, KeyOwner;
    var o := Own(l, inst);
    StartPhase2Record(c, s, s', l, inst, key, bytes);
    LeaderFacts(s, o);
    ProposalsReported(s);
    LeaderChange(c, s, s', o, s'.leaders[o]);
    SameAcceptors(c, s, s');
    FreshPhase2(c, s', o, s'.leaders[o]);
    ClosedKept(c, s, s');
    LeaderStep(c, s, s');
  }

  lemma FinishPhase2Keeps(c: Config, s: Sys, s': Sys, l: nat, p: Packet)
    requires Majority(c) && Inv(c, s) && FinishPhase2Step(c, s, s', l, p)
    ensures Inv(c, s')
  {
    hide PacketOk, Chosen, SysExtends, Votes, Records, Reports, Proposals, Leaders, Values, AcceptorInv,
      Packets, Owner, FirstBallot;
    var o := Own(l, p.msg.inst);
    var r, r' := s.leaders[o], s'.leaders[o];
    LeaderFacts(s, o);
    ProposalsReported(s);
    LeaderChange(c, s, s', o, r');
    SameAcceptors(c, s, s');
    hide LeaderOk, Acceptors;
    if r.status == P2Pending && r.ballot == p.msg.ballot {
      RoundTripChosen(c, s, p);
      FreshPhase2(c, s', o, r');
      if r'.status == Done {
        FreshAcceptance(c, s', r.inst, r.key);
      }
    }
    ClosedKept(c, s, s');
    LeaderStep(c, s, s');
  }

  /** A phase 2 message that got back to the leader was accepted by every acceptor of the ring. */
  lemma RoundTripAccepted(c: Config, s: Sys, p: Packet)
    requires Inv(c, s) && p in s.net && p.msg.Phase2? && p.hop == c.n
    ensures p.msg.accepts == c.n
    ensures forall a :: 0 <= a < c.n ==> Voted(s, a, At(p.msg.inst, p.msg.ballot), p.msg.key)
  {
    assert PacketOk(c, s, p);
  }

  lemma RoundTripChosen(c: Config, s: Sys, p: Packet)
    requires Majority(c) && Inv(c, s) && p in s.net && p.msg.Phase2? && p.hop == c.n
    ensures Chosen(c, s, At(p.msg.inst, p.msg.ballot), p.msg.key)
  {
    hide Inv;
    RoundTripAccepted(c, s, p);
    FullSize(Voters(c, s, At(p.msg.inst, p.msg.ballot), p.msg.key), c.n);
  }

  lemma {:induction false} FullSize(v: set<nat>, n: nat)
    requires forall a :: 0 <= a < n ==> a in v
    ensures |v| >= n
  {
    if n > 0 {
      FullSize(v - {n - 1}, n - 1);
    }
  }
}
