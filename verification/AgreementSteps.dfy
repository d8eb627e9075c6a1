/** Every step of the many-leader system keeps the invariant. */
module AgreementSteps {
  import opened RingTypes
  import opened Ballots
  import opened AcceptorSpec
  import opened AcceptorFacts
  import opened LeaderRecord
  import opened Agreement
  import opened AgreementInv

  // ----- what no step takes back -----

  ghost predicate NewVote(c: Config, s: Sys, s': Sys, v: VoteCast)
    requires Acceptors(c, s) && Acceptors(c, s')
  {
    && v.acc < c.n && 0 < v.at.ballot
    && v.at in s.proposals && s.proposals[v.at] == v.key
    && !Gone(s.accs[v.acc], v.at.inst) && RecordOf(s.accs[v.acc], v.at.inst).ballot <= v.at.ballot
    && (Gone(s'.accs[v.acc], v.at.inst) || RecordOf(s'.accs[v.acc], v.at.inst).acceptBallot >= v.at.ballot)
  }

  /** Acceptors only move up, history only grows, and a new vote is at or above the voter's promise. */
  ghost predicate SysExtends(c: Config, s: Sys, s': Sys)
    requires Acceptors(c, s) && Acceptors(c, s')
  {
    && (forall a :: 0 <= a < c.n ==> Extends(s.accs[a], s'.accs[a]))
    && (forall v :: v in s.votes ==> v in s'.votes)
    && (forall v :: v in s'.votes ==> v in s.votes || NewVote(c, s, s', v))
    && (forall at :: at in s.proposals ==> at in s'.proposals && s'.proposals[at] == s.proposals[at])
    && (forall ik :: ik in s.values ==> ik in s'.values && s'.values[ik] == s.values[ik])
    && (forall ik :: ik in s.closed ==> ik in s'.closed && s'.closed[ik] == s.closed[ik])
  }

  lemma SameNodesExtend(c: Config, s: Sys, s': Sys)
    requires Acceptors(c, s) && s'.accs == s.accs && s'.votes == s.votes
    requires forall at :: at in s.proposals ==> at in s'.proposals && s'.proposals[at] == s.proposals[at]
    requires forall ik :: ik in s.values ==> ik in s'.values && s'.values[ik] == s.values[ik]
    requires forall ik :: ik in s.closed ==> ik in s'.closed && s'.closed[ik] == s.closed[ik]
    ensures Acceptors(c, s') && SysExtends(c, s, s')
  {
    forall a | 0 <= a < c.n
      ensures Extends(s.accs[a], s'.accs[a])
    {
      assert forall inst: nat :: Grows(s.accs[a], s'.accs[a], inst);
    }
  }

  lemma ReportStable(c: Config, s: Sys, s': Sys, at: At, q: set<nat>, highest: nat, key: Key)
    requires Acceptors(c, s) && Acceptors(c, s') && SysExtends(c, s, s')
    requires ReportOk(c, s, at, q, highest, key)
    ensures ReportOk(c, s', at, q, highest, key)
  {
    forall a | a in q
      ensures a < c.n && AtLeast(s'.accs[a], at.inst, at.ballot)
    {
      assert AtLeast(s.accs[a], at.inst, at.ballot) && Grows(s.accs[a], s'.accs[a], at.inst);
    }
    forall v | v in s'.votes && v.acc in q && v.at.inst == at.inst && v.at.ballot < at.ballot
      ensures v.at.ballot <= highest
    {
      assert AtLeast(s.accs[v.acc], at.inst, at.ballot);
    }
  }

  lemma VotesKept(c: Config, s: Sys, s': Sys)
    requires Acceptors(c, s) && Acceptors(c, s') && SysExtends(c, s, s') && Votes(c, s)
    ensures Votes(c, s')
  {
    forall v | v in s'.votes
      ensures VoteOk(c, s', v)
    {
      if v in s.votes {
        assert VoteOk(c, s, v);
        assert Grows(s.accs[v.acc], s'.accs[v.acc], v.at.inst);
      }
    }
  }

  lemma ChosenStable(c: Config, s: Sys, s': Sys, at: At, key: Key)
    requires forall v :: v in s.votes ==> v in s'.votes
    requires Chosen(c, s, at, key)
    ensures Chosen(c, s', at, key)
  {
    var extra := Voters(c, s', at, key) - Voters(c, s, at, key);
    assert Voters(c, s', at, key) == Voters(c, s, at, key) + extra;
  }

  lemma PacketStable(c: Config, s: Sys, s': Sys, p: Packet)
    requires Acceptors(c, s) && Acceptors(c, s') && SysExtends(c, s, s') && PacketOk(c, s, p)
    ensures PacketOk(c, s', p)
  {
    hide ReportOk, Extends, AcceptorInv;
    match p.msg
    case Phase1(inst, ballot, promises, highest, promised, key, bytes) =>
      ReportStable(c, s, s', At(inst, ballot), p.passed, highest, key);
    case Phase1Range(from, to, ballot, promises) =>
      forall i | from <= i <= to
        ensures ReportOk(c, s', At(i, ballot), p.passed, 0, NULL_KEY)
      {
        ReportStable(c, s, s', At(i, ballot), p.passed, 0, NULL_KEY);
      }
    case Phase2(_, _, _, _) =>
      forall a | 0 <= a < p.hop
        ensures a in p.passed && Voted(s', a, At(p.msg.inst, p.msg.ballot), p.msg.key)
      {
        assert Voted(s, a, At(p.msg.inst, p.msg.ballot), p.msg.key);
      }
    case CmdMap(_, _, _) =>
    case Acceptance(_, _) =>
  }

  lemma ClosedKept(c: Config, s: Sys, s': Sys)
    requires Closed(c, s) && forall v :: v in s.votes ==> v in s'.votes
    requires forall ik :: ik in s'.closed && !(ik in s.closed && s'.closed[ik] == s.closed[ik]) ==>
      Chosen(c, s, At(ik.inst, s'.closed[ik]), ik.key)
    ensures Closed(c, s')
  {
    hide Chosen;
    forall ik | ik in s'.closed
      ensures Chosen(c, s', At(ik.inst, s'.closed[ik]), ik.key)
    {
      ChosenStable(c, s, s', At(ik.inst, s'.closed[ik]), ik.key);
    }
  }

  /** Old packets stay good; a step only has to answer for the ones it sends. */
  lemma PacketsKept(c: Config, s: Sys, s': Sys)
    requires Acceptors(c, s) && Acceptors(c, s') && SysExtends(c, s, s') && Packets(c, s)
    requires forall p :: p in s'.net && p !in s.net ==> PacketOk(c, s', p)
    ensures Packets(c, s')
  {
    hide PacketOk, SysExtends;
    forall p | p in s'.net
      ensures PacketOk(c, s', p)
    {
      if p in s.net {
        PacketStable(c, s, s', p);
      }
    }
  }

  ghost predicate ReportEntryOk(c: Config, s: Sys, at: At)
    requires Acceptors(c, s) && at in s.reports
  {
    && ReportOk(c, s, at, s.reports[at].quorum, s.reports[at].highest, s.reports[at].key)
    && |s.reports[at].quorum| >= c.quorum && s.reports[at].highest < at.ballot
  }

  lemma ReportsKept(c: Config, s: Sys, s': Sys)
    requires Acceptors(c, s) && Acceptors(c, s') && SysExtends(c, s, s') && Reports(c, s)
    requires forall at :: at in s'.reports && !(at in s.reports && s.reports[at] == s'.reports[at]) ==> ReportEntryOk(c, s', at)
    ensures Reports(c, s')
  {
    hide SysExtends, ReportOk;
    forall at | at in s'.reports
      ensures ReportEntryOk(c, s', at)
    {
      if at in s.reports && s.reports[at] == s'.reports[at] {
        ReportStable(c, s, s', at, s.reports[at].quorum, s.reports[at].highest, s.reports[at].key);
      }
    }
  }

  lemma RecordsKept(c: Config, s: Sys, s': Sys)
    requires Acceptors(c, s) && Acceptors(c, s') && Records(c, s) && s'.accs == s.accs
    requires forall v :: v in s.votes ==> v in s'.votes
    requires forall ik :: ik in s.values ==> ik in s'.values && s'.values[ik] == s.values[ik]
    ensures Records(c, s')
  {
    forall a, k | 0 <= a < c.n && 0 <= k < c.size
      ensures RecHistory(s', a, s'.accs[a].slots[k])
    {
      assert RecHistory(s, a, s.accs[a].slots[k]);
    }
  }

  /** A change of one leader's record for one instance, with history changed only at that leader's ballots there. */
  lemma LeaderChange(c: Config, s: Sys, s': Sys, o: Own, r': MRec)
    requires Leaders(s) && Proposals(s) && Values(s)
    requires o in s.leaders && s'.leaders == s.leaders[o := r'] && LeaderOk(s', o, r')
    requires s.leaders[o].ballot <= r'.ballot && (s.leaders[o].value.Some? ==> r'.value.Some?)
    requires forall at: At :: at.inst != o.inst || Owner(at.ballot) != o.leader ==>
      && (at in s'.proposals <==> at in s.proposals) && (at in s'.reports <==> at in s.reports)
      && (at in s.reports ==> s'.reports[at] == s.reports[at])
    requires forall at :: at in s.proposals ==>
      at in s'.proposals && s'.proposals[at] == s.proposals[at] && at in s'.reports && s'.reports[at] == s.reports[at]
    requires forall at :: at in s'.proposals && at !in s.proposals ==> ProposalOk(s', at)
    requires forall at :: at in s'.reports && at !in s.reports ==> at.ballot <= r'.ballot
    requires forall ik :: ik in s.values ==> ik in s'.values && s'.values[ik] == s.values[ik]
    requires forall ik :: ik in s'.values && ik !in s.values ==> ValueOwned(s', ik)
    ensures Leaders(s') && Proposals(s') && Values(s')
  {
    hide Owner, FirstBallot, KeyOwner, ProposalOk, LeaderOk, ValueOwned, RecOfLeader;
    forall at | at in s'.reports
      ensures ReportOwned(s', at)
    {
      assert at in s.reports ==> ReportOwned(s, at);
    }
    forall o' | o' in s'.leaders
      ensures LeaderOk(s', o', s'.leaders[o'])
    {
      if o' != o {
        OtherLeader(s, s', o, o');
      }
    }
    forall at | at in s'.proposals
      ensures ProposalOk(s', at)
    {
      if at in s.proposals {
        OldProposal(s, s', o, r', at);
      }
    }
    forall ik | ik in s'.values
      ensures ValueOwned(s', ik)
    {
      if ik in s.values {
        OldValue(s, s', o, r', ik);
      }
    }
  }

  lemma OtherLeader(s: Sys, s': Sys, o: Own, o': Own)
    requires o' in s.leaders && o' != o && o' in s'.leaders && s'.leaders[o'] == s.leaders[o']
    requires LeaderOk(s, o', s.leaders[o'])
    requires forall at: At :: at.inst != o.inst || Owner(at.ballot) != o.leader ==>
      && (at in s'.proposals <==> at in s.proposals) && (at in s'.reports <==> at in s.reports)
      && (at in s.reports ==> s'.reports[at] == s.reports[at])
    requires forall at :: at in s.proposals ==> at in s'.proposals && s'.proposals[at] == s.proposals[at]
    requires forall ik :: ik in s.values ==> ik in s'.values && s'.values[ik] == s.values[ik]
    ensures LeaderOk(s', o', s'.leaders[o'])
  {
    hide Owner, FirstBallot;
    var at := At(o'.inst, s.leaders[o'].ballot);
    assert at.inst != o.inst || Owner(at.ballot) != o.leader;
  }

  lemma OldProposal(s: Sys, s': Sys, o: Own, r': MRec, at: At)
    requires at in s.proposals && ProposalOk(s, at)
    requires o in s.leaders && s'.leaders == s.leaders[o := r'] && s.leaders[o].ballot <= r'.ballot
    requires at in s'.proposals && s'.proposals[at] == s.proposals[at]
    requires at in s.reports ==> at in s'.reports && s'.reports[at] == s.reports[at]
    ensures ProposalOk(s', at)
  {
    hide Owner;
  }

  lemma OldValue(s: Sys, s': Sys, o: Own, r': MRec, ik: InstKey)
    requires ValueOwned(s, ik)
    requires o in s.leaders && s'.leaders == s.leaders[o := r'] && (s.leaders[o].value.Some? ==> r'.value.Some?)
    ensures ValueOwned(s', ik)
  {
    hide KeyOwner;
  }

  /** Nothing but the network (and perhaps the acceptors and votes) changed. */
  lemma LeadersKept(s: Sys, s': Sys)
    requires Leaders(s) && Proposals(s) && Values(s)
    requires s'.leaders == s.leaders && s'.proposals == s.proposals && s'.reports == s.reports && s'.values == s.values
    ensures Leaders(s') && Proposals(s') && Values(s')
  {
    hide FirstBallot, Owner, KeyOwner;
    forall at | at in s'.reports
      ensures ReportOwned(s', at)
    {
      assert ReportOwned(s, at);
    }
    forall o | o in s'.leaders
      ensures LeaderOk(s', o, s'.leaders[o])
    {
      assert LeaderOk(s, o, s.leaders[o]);
    }
    forall at | at in s'.proposals
      ensures ProposalOk(s', at)
    {
      assert ProposalOk(s, at);
    }
    forall ik | ik in s'.values
      ensures ValueOwned(s', ik)
    {
      assert ValueOwned(s, ik);
    }
  }
}
