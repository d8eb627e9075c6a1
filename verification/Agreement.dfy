/** Ring Paxos with any number of leaders over a network that loses, repeats and reorders messages. */
module Agreement {
  import opened RingTypes
  import opened Ballots
  import opened AcceptorSpec
  import opened AcceptorFacts
  import opened LeaderRecord

  /** n acceptors in ring order, each with a store of `size` records; leaders are outside the ring. */
  datatype Config = Config(n: nat, quorum: nat, size: nat)

  predicate Majority(c: Config) {
    0 < c.quorum <= c.n < 2 * c.quorum && c.size > 0
  }

  datatype At = At(inst: nat, ballot: nat)

  datatype Own = Own(leader: nat, inst: nat)

  datatype InstKey = InstKey(inst: nat, key: Key)

  /** A message on its way to ring position `hop` (n is the leader). `passed` records, for the proof only,
      which acceptors have counted themselves in its counter. */
  datatype Packet = Packet(msg: Msg, hop: nat, passed: set<nat>)

  datatype VoteCast = VoteCast(acc: nat, at: At, key: Key)

  /** What a finished phase 1 reported: who promised, and the highest ballot any of them had accepted. */
  datatype Report = Report(quorum: set<nat>, highest: nat, key: Key)

  /** Nodes and network, then history: votes, the key of each phase 2 by ballot, the report each finished
      phase 1 had, the bytes broadcast for each key, and the ballot at which a leader closed a key. */
  datatype Sys = Sys(
    accs: seq<Acceptor>, leaders: map<Own, MRec>, net: set<Packet>,
    votes: set<VoteCast>, proposals: map<At, Key>, reports: map<At, Report>,
    values: map<InstKey, Bytes>, closed: map<InstKey, nat>)

  function RecOfLeader(s: Sys, l: nat, inst: nat): MRec {
    if Own(l, inst) in s.leaders then s.leaders[Own(l, inst)] else ReadyRec(inst)
  }

  function FirstBallot(l: nat): nat {
    MakeFirstBallot(l / 256, l % 256)
  }

  function KeyOwner(k: Key): nat {
    Ident(k.mcaster, k.incarnation)
  }

  function Counter(m: Msg): nat {
    match m
    case Phase1(_, _, promises, _, _, _, _) => promises
    case Phase1Range(_, _, _, promises) => promises
    case Phase2(_, _, accepts, _) => accepts
    case CmdMap(_, _, _) => 0
    case Acceptance(_, _) => 0
  }

  function Forwarded(p: Packet, m: Msg): Packet {
    Packet(m, p.hop + 1, if Counter(m) > Counter(p.msg) then p.passed + {p.hop} else p.passed)
  }

  /** Leaders send to the first acceptor of the ring, or to everyone. */
  function Sent(ms: seq<Msg>): set<Packet> {
    set m | m in ms :: Packet(m, 0, {})
  }

  // ----- steps -----

  datatype Step =
    | Deliver(p: Packet)
    | LearnMapping(acc: nat, p: Packet)
    | OpenRange(l: nat, from: nat, last: nat)
    | RepeatPhase1(l: nat, inst: nat)
    | FinishPhase1(l: nat, p: Packet)
    | FinishRange(l: nat, p: Packet)
    | StartPhase2(l: nat, inst: nat, key: Key, bytes: Bytes)
    | RepeatPhase2(l: nat, inst: nat)
    | FinishPhase2(l: nat, p: Packet)
    | RestartPhase1(l: nat, inst: nat, beat: nat)

  function VotesAfter(s: Sys, p: Packet, out: seq<Msg>): set<VoteCast> {
    if p.msg.Phase2? && out != [] then
      s.votes + {VoteCast(p.hop, At(p.msg.inst, p.msg.ballot), p.msg.key)}
    else
      s.votes
  }

  /** The acceptor at position p.hop handles a ring message. */
  predicate DeliverStep(c: Config, s: Sys, s': Sys, p: Packet) {
    && p in s.net && p.hop < c.n == |s.accs| && RingMsg(p.msg)
    && |s.accs[p.hop].slots| > 0
    && Handle(s.accs[p.hop], p.msg).Some?
    && var (a', out) := Handle(s.accs[p.hop], p.msg).value;
       s' == s.(accs := s.accs[p.hop := a'],
                net := s.net + (set m | m in out :: Forwarded(p, m)),
                votes := VotesAfter(s, p, out))
  }

  predicate LearnMappingStep(c: Config, s: Sys, s': Sys, acc: nat, p: Packet) {
    && p in s.net && acc < c.n == |s.accs| && p.msg.CmdMap?
    && |s.accs[acc].slots| > 0
    && HandleCmdMap(s.accs[acc], p.msg).Some?
    && s' == s.(accs := s.accs[acc := HandleCmdMap(s.accs[acc], p.msg).value])
  }

  function Pending(l: nat, from: nat, last: nat): map<Own, MRec> {
    map i | from <= i <= last :: Own(l, i) := MRec(i, P1Pending, FirstBallot(l), NULL_KEY, None)
  }

  predicate OpenRangeStep(c: Config, s: Sys, s': Sys, l: nat, from: nat, last: nat) {
    && 0 < from <= last && l < WORD16
    && (forall i :: from <= i <= last ==> Own(l, i) !in s.leaders)
    && s' == s.(leaders := s.leaders + Pending(l, from, last),
                net := s.net + Sent([Phase1Range(from, last, FirstBallot(l), 0)]))
  }

  predicate RepeatPhase1Step(c: Config, s: Sys, s': Sys, l: nat, inst: nat) {
    && Own(l, inst) in s.leaders && s.leaders[Own(l, inst)].status == P1Pending
    && s' == s.(net := s.net + Sent([Phase1Msg(s.leaders[Own(l, inst)])]))
  }

  /** The leader handles one of its phase 1 messages, as coded. Sequence numbers are assumed not to run out. */
  predicate CodedFinishPhase1(c: Config, s: Sys, s': Sys, l: nat, p: Packet) {
    && p in s.net && p.hop == c.n && p.msg.Phase1? && Owner(p.msg.ballot) == l
    && Own(l, p.msg.inst) in s.leaders
    && var r := s.leaders[Own(l, p.msg.inst)];
       var at := At(p.msg.inst, r.ballot);
       var reply := OnPhase1(c.quorum, r, p.msg);
       && Awaited1(r, p.msg)
       && Seq(p.msg.highestPromised) < 0xFFFF
       && s' == s.(leaders := s.leaders[Own(l, p.msg.inst) := reply.rec],
                   net := s.net + Sent(reply.sends),
                   reports := if p.msg.promises >= c.quorum then
                                s.reports[at := Report(p.passed, p.msg.highestAccepted, p.msg.key)]
                              else s.reports,
                   proposals := if reply.rec.status == P2Pending then s.proposals[at := reply.rec.key] else s.proposals)
  }

  /** Phase 1 did not end, reported nothing accepted, or the instance has a command assigned. */
  predicate NothingForgotten(c: Config, s: Sys, l: nat, p: Packet) {
    p.msg.Phase1? && Own(l, p.msg.inst) in s.leaders ==>
      p.msg.promises < c.quorum || p.msg.highestAccepted == 0 || s.leaders[Own(l, p.msg.inst)].value.Some?
  }

  /** The branch that forgets the reported command is not taken (see AgreementGuards). */
  predicate FinishPhase1Step(c: Config, s: Sys, s': Sys, l: nat, p: Packet) {
    CodedFinishPhase1(c, s, s', l, p) && NothingForgotten(c, s, l, p)
  }

  function Ended(s: Sys, l: nat, from: nat, last: nat): map<Own, MRec>
    requires forall i :: from <= i <= last ==> Own(l, i) in s.leaders
  {
    map i | from <= i <= last :: Own(l, i) := s.leaders[Own(l, i)].(status := P1Done)
  }

  function Unreported(from: nat, last: nat, ballot: nat, quorum: set<nat>): map<At, Report> {
    map i | from <= i <= last :: At(i, ballot) := Report(quorum, 0, NULL_KEY)
  }

  /** The leader handles one of its range messages, as coded: every record of the range must wait for phase 1,
      whatever its ballot. */
  predicate CodedFinishRange(c: Config, s: Sys, s': Sys, l: nat, p: Packet) {
    && p in s.net && p.hop == c.n && p.msg.Phase1Range? && Owner(p.msg.ballot) == l
    && if p.msg.promises < c.quorum then
         s' == s.(net := s.net + Sent([Phase1Range(p.msg.from, p.msg.to, p.msg.ballot, 0)]))
       else
         && (forall i :: p.msg.from <= i <= p.msg.to ==>
               Own(l, i) in s.leaders && s.leaders[Own(l, i)].status == P1Pending)
         && s' == s.(leaders := s.leaders + Ended(s, l, p.msg.from, p.msg.to),
                     reports := s.reports + Unreported(p.msg.from, p.msg.to, p.msg.ballot, p.passed))
  }

  /** Phase 1 did not end, or the records of the range still use the ballot of the message. */
  predicate SameBallots(c: Config, s: Sys, l: nat, p: Packet) {
    p.msg.Phase1Range? && p.msg.promises >= c.quorum ==>
      forall i :: p.msg.from <= i <= p.msg.to ==> Own(l, i) in s.leaders && s.leaders[Own(l, i)].ballot == p.msg.ballot
  }

  /** A late answer to a ballot given up is not taken for an answer to the new one (see AgreementGuards). */
  predicate FinishRangeStep(c: Config, s: Sys, s': Sys, l: nat, p: Packet) {
    CodedFinishRange(c, s, s', l, p) && SameBallots(c, s, l, p)
  }

  /** The leader assigns a client value, under a new key of its own, to an instance that finished phase 1. */
  predicate StartPhase2Step(c: Config, s: Sys, s': Sys, l: nat, inst: nat, key: Key, bytes: Bytes) {
    && Own(l, inst) in s.leaders && key.seqnum > 0 && KeyOwner(key) == l
    && var r := s.leaders[Own(l, inst)];
       var r' := MRec(inst, P2Pending, r.ballot, key, Some(bytes));
       && r.status == P1Done && r.value.None?
       && s' == s.(leaders := s.leaders[Own(l, inst) := r'],
                   net := s.net + Sent([MappingMsg(r'), Phase2Msg(r')]),
                   proposals := s.proposals[At(inst, r.ballot) := key],
                   values := s.values[InstKey(inst, key) := bytes])
  }

  predicate RepeatPhase2Step(c: Config, s: Sys, s': Sys, l: nat, inst: nat) {
    && Own(l, inst) in s.leaders && s.leaders[Own(l, inst)].status == P2Pending
    && s' == s.(net := s.net + Sent([MappingMsg(s.leaders[Own(l, inst)]), Phase2Msg(s.leaders[Own(l, inst)])]))
  }

  predicate FinishPhase2Step(c: Config, s: Sys, s': Sys, l: nat, p: Packet) {
    && p in s.net && p.hop == c.n && p.msg.Phase2?
    && Own(l, p.msg.inst) in s.leaders
    && var r := s.leaders[Own(l, p.msg.inst)];
       && OnPhase2(c.quorum, r, p.msg).Some?
       && var reply := OnPhase2(c.quorum, r, p.msg).value;
          s' == s.(leaders := s.leaders[Own(l, p.msg.inst) := reply.rec],
                   net := s.net + Sent(reply.sends),
                   closed := if reply.rec.status == Done && r.status != Done && InstKey(p.msg.inst, r.key) !in s.closed then
                               s.closed[InstKey(p.msg.inst, r.key) := r.ballot]
                             else s.closed)
  }

  /** A leader that gives up on a phase 2 goes through phase 1 again with a higher ballot. */
  predicate RestartPhase1Step(c: Config, s: Sys, s': Sys, l: nat, inst: nat, beat: nat) {
    && Own(l, inst) in s.leaders
    && var r := s.leaders[Own(l, inst)];
       var r' := r.(status := P1Pending, ballot := RaiseBallot(r.ballot, beat));
       && r.status == P2Pending && r.ballot <= beat < WORD32 && Seq(beat) < 0xFFFF
       && s' == s.(leaders := s.leaders[Own(l, inst) := r'], net := s.net + Sent([Phase1Msg(r')]))
  }

  /** Every step as the program takes it. */
  predicate CodedStep(c: Config, s: Sys, s': Sys, step: Step) {
    match step
    case Deliver(p) => DeliverStep(c, s, s', p)
    case LearnMapping(acc, p) => LearnMappingStep(c, s, s', acc, p)
    case OpenRange(l, from, last) => OpenRangeStep(c, s, s', l, from, last)
    case RepeatPhase1(l, inst) => RepeatPhase1Step(c, s, s', l, inst)
    case FinishPhase1(l, p) => CodedFinishPhase1(c, s, s', l, p)
    case FinishRange(l, p) => CodedFinishRange(c, s, s', l, p)
    case StartPhase2(l, inst, key, bytes) => StartPhase2Step(c, s, s', l, inst, key, bytes)
    case RepeatPhase2(l, inst) => RepeatPhase2Step(c, s, s', l, inst)
    case FinishPhase2(l, p) => FinishPhase2Step(c, s, s', l, p)
    case RestartPhase1(l, inst, beat) => RestartPhase1Step(c, s, s', l, inst, beat)
  }

  /** What a leader can check before it ends phase 1. */
  predicate Guarded(c: Config, s: Sys, step: Step) {
    match step
    case FinishPhase1(l, p) => NothingForgotten(c, s, l, p)
    case FinishRange(l, p) => SameBallots(c, s, l, p)
    case _ => true
  }

  predicate NextStep(c: Config, s: Sys, s': Sys, step: Step) {
    CodedStep(c, s, s', step) && Guarded(c, s, step)
  }

  function InitSys(c: Config): Sys {
    Sys(seq(c.n, _ => InitAcceptor(c.size)), map[], {}, {}, map[], map[], map[], map[])
  }

  /** A run: states and the steps between them. */
  ghost predicate IsRun(c: Config, run: seq<Sys>, steps: seq<Step>) {
    && |run| == |steps| + 1 && run[0] == InitSys(c)
    && forall j :: 0 <= j < |steps| ==> NextStep(c, run[j], run[j + 1], steps[j])
  }

  /** A run of the program as coded. */
  ghost predicate IsCodedRun(c: Config, run: seq<Sys>, steps: seq<Step>) {
    && |run| == |steps| + 1 && run[0] == InitSys(c)
    && forall j :: 0 <= j < |steps| ==> CodedStep(c, run[j], run[j + 1], steps[j])
  }
}
