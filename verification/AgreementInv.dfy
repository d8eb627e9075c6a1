/** The invariant of the many-leader system and the agreement it gives. */
module AgreementInv {
  import opened RingTypes
  import opened Ballots
  import opened AcceptorSpec
  import opened AcceptorFacts
  import opened LeaderRecord
  import opened Agreement

  // ----- the invariant, part by part -----

  ghost predicate Acceptors(c: Config, s: Sys) {
    |s.accs| == c.n && forall a :: 0 <= a < c.n ==> |s.accs[a].slots| == c.size > 0 && AcceptorInv(s.accs[a])
  }

  predicate Voted(s: Sys, a: nat, at: At, key: Key) {
    VoteCast(a, at, key) in s.votes
  }

  /** A vote is for the one key proposed at its ballot, and the voter remembers a vote at least as high. */
  ghost predicate VoteOk(c: Config, s: Sys, v: VoteCast)
    requires Acceptors(c, s)
  {
    && v.acc < c.n && 0 < v.at.ballot
    && v.at in s.proposals && s.proposals[v.at] == v.key
    && (Gone(s.accs[v.acc], v.at.inst) || RecordOf(s.accs[v.acc], v.at.inst).acceptBallot >= v.at.ballot)
  }

  ghost predicate Votes(c: Config, s: Sys)
    requires Acceptors(c, s)
  {
    forall v :: v in s.votes ==> VoteOk(c, s, v)
  }

  predicate Known(s: Sys, inst: nat, m: Option<Mapping>) {
    m.Some? ==> InstKey(inst, m.value.key) in s.values && s.values[InstKey(inst, m.value.key)] == m.value.bytes
  }

  /** What a record says was accepted was voted for; its commands are the ones broadcast for their keys. */
  predicate RecHistory(s: Sys, a: nat, r: Rec) {
    && r.ballot < WORD32
    && (r.acceptBallot > 0 && r.accepted.Some? ==> Voted(s, a, At(r.inst, r.acceptBallot), r.accepted.value.key))
    && Known(s, r.inst, r.accepted) && Known(s, r.inst, r.proposed)
  }

  ghost predicate Records(c: Config, s: Sys)
    requires Acceptors(c, s)
  {
    forall a, k :: 0 <= a < c.n && 0 <= k < c.size ==> RecHistory(s, a, s.accs[a].slots[k])
  }

  /** Everyone in q promised at.ballot, and below it voted no higher than `highest`, where `key` was proposed. */
  ghost predicate ReportOk(c: Config, s: Sys, at: At, q: set<nat>, highest: nat, key: Key)
    requires Acceptors(c, s)
  {
    && (forall a :: a in q ==> a < c.n && AtLeast(s.accs[a], at.inst, at.ballot))
    && (forall v :: v in s.votes && v.acc in q && v.at.inst == at.inst && v.at.ballot < at.ballot ==> v.at.ballot <= highest)
    && (highest > 0 ==>
          && At(at.inst, highest) in s.proposals && s.proposals[At(at.inst, highest)] == key
          && InstKey(at.inst, key) in s.values)
  }

  predicate Passed(p: Packet, n: nat) {
    p.hop <= n && forall a :: a in p.passed ==> a < p.hop
  }

  ghost predicate RangeReports(c: Config, s: Sys, m: Msg, q: set<nat>)
    requires Acceptors(c, s) && m.Phase1Range?
  {
    forall i :: m.from <= i <= m.to ==> ReportOk(c, s, At(i, m.ballot), q, 0, NULL_KEY)
  }

  predicate AcceptedBefore(s: Sys, p: Packet)
    requires p.msg.Phase2?
  {
    forall a :: 0 <= a < p.hop ==> a in p.passed && Voted(s, a, At(p.msg.inst, p.msg.ballot), p.msg.key)
  }

  function Voters(c: Config, s: Sys, at: At, key: Key): set<nat> {
    set a | 0 <= a < c.n && Voted(s, a, at, key)
  }

  /** A quorum of acceptors accepted the key at one ballot. */
  predicate Chosen(c: Config, s: Sys, at: At, key: Key) {
    |Voters(c, s, at, key)| >= c.quorum
  }

  ghost predicate PacketOk(c: Config, s: Sys, p: Packet)
    requires Acceptors(c, s)
  {
    && WellFormed(p.msg)
    && match p.msg
       case Phase1(inst, ballot, promises, highest, promised, key, bytes) =>
         && Passed(p, c.n) && promises == |p.passed| && ballot < WORD32
         && ReportOk(c, s, At(inst, ballot), p.passed, highest, key) && highest <= ballot
         && (highest > 0 ==> InstKey(inst, key) in s.values && s.values[InstKey(inst, key)] == bytes)
         && (promised == 0 || ballot < promised < WORD32)
       case Phase1Range(from, to, ballot, promises) =>
         && Passed(p, c.n) && promises == |p.passed| && ballot == FirstBallot(Owner(ballot)) < WORD32
         && RangeReports(c, s, p.msg, p.passed)
       case Phase2(inst, ballot, accepts, key) =>
         && Passed(p, c.n) && accepts == p.hop && ballot < WORD32
         && At(inst, ballot) in s.proposals && s.proposals[At(inst, ballot)] == key
         && AcceptedBefore(s, p)
       case CmdMap(inst, key, bytes) =>
         InstKey(inst, key) in s.values && s.values[InstKey(inst, key)] == bytes
       case Acceptance(inst, key) =>
         InstKey(inst, key) in s.closed
  }

  ghost predicate Packets(c: Config, s: Sys)
    requires Acceptors(c, s)
  {
    forall p :: p in s.net ==> PacketOk(c, s, p)
  }

  ghost predicate Reports(c: Config, s: Sys)
    requires Acceptors(c, s)
  {
    forall at :: at in s.reports ==>
      && ReportOk(c, s, at, s.reports[at].quorum, s.reports[at].highest, s.reports[at].key)
      && |s.reports[at].quorum| >= c.quorum && s.reports[at].highest < at.ballot
  }

  /** The value-choice rule of Paxos: a proposal repeats the highest accepted key its report names. */
  predicate ProposalOk(s: Sys, at: At)
    requires at in s.proposals
  {
    && at in s.reports
    && (s.reports[at].highest == 0 || s.reports[at].key == s.proposals[at])
    && s.proposals[at] != NULL_KEY && at.inst > 0
    && 0 < at.ballot <= RecOfLeader(s, Owner(at.ballot), at.inst).ballot
  }

  ghost predicate Proposals(s: Sys) {
    forall at :: at in s.proposals ==> ProposalOk(s, at)
  }

  predicate LeaderOk(s: Sys, o: Own, r: MRec) {
    && r.inst == o.inst > 0 && Owner(r.ballot) == o.leader && 0 < r.ballot < WORD32
    && (r.status == P1Pending || r.status == P1Done || r.status == P2Pending || r.status == Done)
    && (r.status == P1Pending ==>
          && At(o.inst, r.ballot) !in s.proposals && At(o.inst, r.ballot) !in s.reports
          && (r.value.Some? ==> r.ballot > FirstBallot(o.leader)))
    && (r.status == P1Done ==>
          && At(o.inst, r.ballot) !in s.proposals && r.value.None?
          && At(o.inst, r.ballot) in s.reports && s.reports[At(o.inst, r.ballot)].highest == 0)
    && (r.status == P2Pending || r.status == Done ==>
          && At(o.inst, r.ballot) in s.proposals && s.proposals[At(o.inst, r.ballot)] == r.key && r.value.Some?)
    && (r.value.Some? ==>
          r.key != NULL_KEY && InstKey(o.inst, r.key) in s.values && s.values[InstKey(o.inst, r.key)] == r.value.value)
    && r.ballot >= FirstBallot(o.leader)
  }

  /** Phase 1 only ended at ballots up to the one in use. */
  predicate ReportOwned(s: Sys, at: At) {
    Own(Owner(at.ballot), at.inst) in s.leaders && at.ballot <= s.leaders[Own(Owner(at.ballot), at.inst)].ballot
  }

  ghost predicate Leaders(s: Sys) {
    && (forall o :: o in s.leaders ==> LeaderOk(s, o, s.leaders[o]))
    && (forall at :: at in s.reports ==> ReportOwned(s, at))
  }

  /** A key is only broadcast for an instance in which its owner has a command assigned. */
  predicate ValueOwned(s: Sys, ik: InstKey) {
    Own(KeyOwner(ik.key), ik.inst) in s.leaders && s.leaders[Own(KeyOwner(ik.key), ik.inst)].value.Some?
  }

  ghost predicate Values(s: Sys) {
    forall ik :: ik in s.values ==> ValueOwned(s, ik)
  }

  /** A leader closes a key only when a quorum accepted it. */
  ghost predicate Closed(c: Config, s: Sys) {
    forall ik :: ik in s.closed ==> Chosen(c, s, At(ik.inst, s.closed[ik]), ik.key)
  }

  ghost predicate Inv(c: Config, s: Sys) {
    && Acceptors(c, s) && Votes(c, s) && Records(c, s) && Packets(c, s)
    && Reports(c, s) && Proposals(s) && Leaders(s) && Values(s) && Closed(c, s)
  }

  // ----- agreement follows from the invariant -----

  lemma {:induction false} SubsetSize(a: set<nat>, n: nat)
    requires forall x :: x in a ==> x < n
    ensures |a| <= n
  {
    if n == 0 {
      assert a == {};
    } else {
      SubsetSize(a - {n - 1}, n - 1);
      if n - 1 in a {
        assert |a - {n - 1}| == |a| - 1;
      } else {
        assert a - {n - 1} == a;
      }
    }
  }

  /** Two majorities of the ring meet. */
  lemma QuorumsMeet(c: Config, a: set<nat>, b: set<nat>) returns (x: nat)
    requires Majority(c) && |a| >= c.quorum && |b| >= c.quorum
    requires (forall x :: x in a ==> x < c.n) && (forall x :: x in b ==> x < c.n)
    ensures x in a && x in b
  {
    SubsetSize(a + b, c.n);
    assert |a + b| == |a| + |b| - |a * b|;
    assert a * b != {};
    x :| x in a * b;
  }

  /** Once a quorum accepted a key, every phase 2 at that ballot or above carries the same key. */
  lemma {:induction false} ChosenFixesProposals(c: Config, s: Sys, inst: nat, b: nat, key: Key, b': nat)
    requires Majority(c) && Inv(c, s)
    requires Chosen(c, s, At(inst, b), key) && b <= b' && At(inst, b') in s.proposals
    ensures s.proposals[At(inst, b')] == key
    decreases b'
  {
    hide Chosen, LeaderOk, PacketOk, RecHistory, AcceptorInv;
    var at' := At(inst, b');
    var voters := Voters(c, s, At(inst, b), key);
    assert |voters| >= c.quorum by {
      ChosenMeans(c, s, At(inst, b), key);
    }
    assert ProposalOk(s, at');
    var report := s.reports[at'];
    var a := QuorumsMeet(c, voters, report.quorum);
    var v := VoteCast(a, At(inst, b), key);
    assert v in s.votes && VoteOk(c, s, v);
    if b < b' {
      assert ReportOk(c, s, at', report.quorum, report.highest, report.key);
      assert b <= report.highest < b';
      ChosenFixesProposals(c, s, inst, b, key, report.highest);
    }
  }

  lemma ChosenMeans(c: Config, s: Sys, at: At, key: Key)
    requires Chosen(c, s, at, key)
    ensures |Voters(c, s, at, key)| >= c.quorum
  {
  }

  /** In one instance no two different keys are ever accepted by quorums, at whatever ballots. */
  lemma ChosenUnique(c: Config, s: Sys, inst: nat, b1: nat, k1: Key, b2: nat, k2: Key)
    requires Majority(c) && Inv(c, s)
    requires Chosen(c, s, At(inst, b1), k1) && Chosen(c, s, At(inst, b2), k2)
    ensures k1 == k2
  {
    ChosenProposed(c, s, At(inst, b1), k1);
    ChosenProposed(c, s, At(inst, b2), k2);
    if b1 <= b2 {
      ChosenFixesProposals(c, s, inst, b1, k1, b2);
    } else {
      ChosenFixesProposals(c, s, inst, b2, k2, b1);
    }
  }

  lemma ChosenProposed(c: Config, s: Sys, at: At, key: Key)
    requires Majority(c) && Inv(c, s) && Chosen(c, s, at, key)
    ensures at in s.proposals && s.proposals[at] == key
  {
    var voters := Voters(c, s, at, key);
    assert voters != {};
    var a :| a in voters;
    assert VoteOk(c, s, VoteCast(a, at, key));
  }

  /** Learners that are told of acceptances of one instance are told the same key. */
  lemma AcceptancesAgree(c: Config, s: Sys, p1: Packet, p2: Packet)
    requires Majority(c) && Inv(c, s) && p1 in s.net && p2 in s.net
    requires p1.msg.Acceptance? && p2.msg.Acceptance? && p1.msg.inst == p2.msg.inst
    ensures p1.msg.key == p2.msg.key
  {
    assert PacketOk(c, s, p1) && PacketOk(c, s, p2);
    var i := p1.msg.inst;
    ChosenUnique(c, s, i, s.closed[InstKey(i, p1.msg.key)], p1.msg.key, s.closed[InstKey(i, p2.msg.key)], p2.msg.key);
  }
}
