/** Agreement needs both guards: for every majority configuration the program as coded has a run in which only one
    of the two guards is ever false, and two leaders announce different keys for instance 1. */
module Disagreement {
  import opened RingTypes
  import opened Modular
  import opened Ballots
  import opened AcceptorSpec
  import opened LeaderRecord
  import opened Agreement

  /** The one branch that may be taken with its guard false. */
  datatype Branch = Forgetting | LateRange

  predicate Takes(step: Step, branch: Branch) {
    match branch
    case Forgetting => step.FinishPhase1?
    case LateRange => step.FinishRange?
  }

  predicate StepBut(c: Config, w: Branch, s: Sys, s': Sys, step: Step) {
    CodedStep(c, s, s', step) && (Guarded(c, s, step) || Takes(step, w))
  }

  ghost predicate Path(c: Config, w: Branch, run: seq<Sys>, steps: seq<Step>) {
    |run| == |steps| + 1 && forall j :: 0 <= j < |steps| ==> StepBut(c, w, run[j], run[j + 1], steps[j])
  }

  ghost predicate Leads(c: Config, w: Branch, s: Sys, s': Sys) {
    exists run, steps :: Path(c, w, run, steps) && run[0] == s && run[|run| - 1] == s'
  }

  lemma LeadsNowhere(c: Config, w: Branch, s: Sys)
    ensures Leads(c, w, s, s)
  {
    assert Path(c, w, [s], []);
  }

  lemma LeadsByStep(c: Config, w: Branch, s: Sys, s': Sys, step: Step)
    requires StepBut(c, w, s, s', step)
    ensures Leads(c, w, s, s')
  {
    hide StepBut;
    assert Path(c, w, [s, s'], [step]);
  }

  lemma LeadsOn(c: Config, w: Branch, s: Sys, s1: Sys, s2: Sys)
    requires Leads(c, w, s, s1) && Leads(c, w, s1, s2)
    ensures Leads(c, w, s, s2)
  {
    hide StepBut;
    var run1, steps1 :| Path(c, w, run1, steps1) && run1[0] == s && run1[|run1| - 1] == s1;
    var run2, steps2 :| Path(c, w, run2, steps2) && run2[0] == s1 && run2[|run2| - 1] == s2;
    var run, steps := run1 + run2[1..], steps1 + steps2;
    forall j | 0 <= j < |steps|
      ensures StepBut(c, w, run[j], run[j + 1], steps[j])
    {
      if j < |steps1| {
        assert StepBut(c, w, run1[j], run1[j + 1], steps1[j]);
      } else {
        var i := j - |steps1|;
        assert StepBut(c, w, run2[i], run2[i + 1], steps2[i]);
        assert run[j] == run2[i] && run[j + 1] == run2[i + 1];
      }
    }
    assert Path(c, w, run, steps);
  }

  // ----- what the steps are about here: instance 1 -----

  /** A message waits at ring position hop. */
  ghost predicate Waits(s: Sys, m: Msg, hop: nat) {
    exists q :: Packet(m, hop, q) in s.net
  }

  /** The acceptor's record of instance 1; `unseen`: it has not seen any instance. */
  predicate Holds(a: Acceptor, r: Rec, unseen: bool) {
    && |a.slots| > 0 && !Gone(a, 1) && r.inst == 1 && RecordOf(a, 1) == r
    && (unseen ==> a.highestSeen == 0)
  }

  /** The first k acceptors hold r', the others r. */
  ghost predicate Split(c: Config, s: Sys, k: nat, r': Rec, r: Rec, unseen: bool) {
    && |s.accs| == c.n
    && forall a :: 0 <= a < c.n ==> if a < k then Holds(s.accs[a], r', false) else Holds(s.accs[a], r, unseen)
  }

  ghost predicate AllHold(c: Config, s: Sys, r: Rec, unseen: bool) {
    Split(c, s, 0, r, r, unseen)
  }

  predicate SameLeaders(s: Sys, s': Sys) {
    s'.leaders == s.leaders && s.net <= s'.net
  }

  /** Only the record of leader l changed. */
  predicate Becomes(s: Sys, s': Sys, l: nat, r: MRec) {
    s'.leaders == s.leaders[Own(l, 1) := r] && s'.accs == s.accs && s.net <= s'.net
  }

  // ----- single steps -----

  lemma Deliver1(c: Config, w: Branch, s: Sys, m: Msg, k: nat, out: Msg) returns (s': Sys)
    requires Waits(s, m, k) && k < c.n == |s.accs| && RingMsg(m) && |s.accs[k].slots| > 0
    requires Handle(s.accs[k], m).Some? && Handle(s.accs[k], m).value.1 == [out]
    ensures Leads(c, w, s, s') && SameLeaders(s, s') && Waits(s', out, k + 1)
    ensures s'.accs == s.accs[k := Handle(s.accs[k], m).value.0]
  {
    hide Handle, Leads;
    var q :| Packet(m, k, q) in s.net;
    var p := Packet(m, k, q);
    var (a', outs) := Handle(s.accs[k], m).value;
    s' := s.(accs := s.accs[k := a'], net := s.net + (set x | x in outs :: Forwarded(p, x)),
             votes := VotesAfter(s, p, outs));
    assert DeliverStep(c, s, s', p);
    LeadsByStep(c, w, s, s', Deliver(p));
    assert out in outs;
    var f := Forwarded(p, out);
    assert Packet(out, k + 1, f.passed) in s'.net;
  }

  lemma Learn1(c: Config, w: Branch, s: Sys, m: Msg, k: nat) returns (s': Sys)
    requires Waits(s, m, 0) && k < c.n == |s.accs| && m.CmdMap? && |s.accs[k].slots| > 0
    requires HandleCmdMap(s.accs[k], m).Some?
    ensures Leads(c, w, s, s') && SameLeaders(s, s') && s'.accs == s.accs[k := HandleCmdMap(s.accs[k], m).value]
  {
    hide HandleCmdMap, Leads;
    var q :| Packet(m, 0, q) in s.net;
    s' := s.(accs := s.accs[k := HandleCmdMap(s.accs[k], m).value]);
    LeadsByStep(c, w, s, s', LearnMapping(k, Packet(m, 0, q)));
  }

  lemma SentWaits(s: Sys, ms: seq<Msg>, m: Msg)
    requires Sent(ms) <= s.net && m in ms
    ensures Waits(s, m, 0)
  {
    assert Packet(m, 0, {}) in Sent(ms);
  }

  lemma OpenIsPossible(c: Config, s: Sys, l: nat, from: nat, last: nat) returns (s': Sys)
    requires 0 < from <= last && l < WORD16 && forall i :: from <= i <= last ==> Own(l, i) !in s.leaders
    ensures OpenRangeStep(c, s, s', l, from, last)
  {
    hide FirstBallot;
    s' := s.(leaders := s.leaders + Pending(l, from, last),
             net := s.net + Sent([Phase1Range(from, last, FirstBallot(l), 0)]));
  }

  lemma OpensOne(c: Config, s: Sys, s': Sys, l: nat)
    requires OpenRangeStep(c, s, s', l, 1, 1)
    ensures Becomes(s, s', l, MRec(1, P1Pending, FirstBallot(l), NULL_KEY, None))
    ensures Sent([Phase1Range(1, 1, FirstBallot(l), 0)]) <= s'.net
  {
    hide FirstBallot, Sent;
    var want := s.leaders[Own(l, 1) := MRec(1, P1Pending, FirstBallot(l), NULL_KEY, None)];
    assert forall o :: o in s'.leaders <==> o in want;
    assert forall o :: o in s'.leaders ==> s'.leaders[o] == want[o];
  }

  lemma Open1(c: Config, w: Branch, s: Sys, l: nat) returns (s': Sys)
    requires Own(l, 1) !in s.leaders && l < WORD16
    ensures Leads(c, w, s, s') && Becomes(s, s', l, MRec(1, P1Pending, FirstBallot(l), NULL_KEY, None))
    ensures Waits(s', Phase1Range(1, 1, FirstBallot(l), 0), 0)
  {
    hide FirstBallot, Leads, Waits, Sent, OpenRangeStep;
    s' := OpenIsPossible(c, s, l, 1, 1);
    LeadsByStep(c, w, s, s', OpenRange(l, 1, 1));
    OpensOne(c, s, s', l);
    SentWaits(s', [Phase1Range(1, 1, FirstBallot(l), 0)], Phase1Range(1, 1, FirstBallot(l), 0));
  }

  lemma Repeat1(c: Config, w: Branch, s: Sys, l: nat) returns (s': Sys)
    requires Own(l, 1) in s.leaders && s.leaders[Own(l, 1)].status == P1Pending && s.leaders[Own(l, 1)].inst == 1
    ensures Leads(c, w, s, s') && SameLeaders(s, s') && s'.accs == s.accs
    ensures Waits(s', NewPhase1(1, s.leaders[Own(l, 1)].ballot, 0), 0)
  {
    hide Leads;
    var m := Phase1Msg(s.leaders[Own(l, 1)]);
    s' := s.(net := s.net + Sent([m]));
    LeadsByStep(c, w, s, s', RepeatPhase1(l, 1));
    SentWaits(s', [m], m);
  }

  /** A range answer with enough promises ends phase 1; at another ballot than the record's, the guard is false. */
  lemma EndRange(c: Config, w: Branch, s: Sys, l: nat, b: nat, promises: nat) returns (s': Sys)
    requires Own(l, 1) in s.leaders && s.leaders[Own(l, 1)].status == P1Pending
    requires Waits(s, Phase1Range(1, 1, b, promises), c.n) && promises >= c.quorum && Owner(b) == l
    requires s.leaders[Own(l, 1)].ballot == b || w == LateRange
    ensures Leads(c, w, s, s') && Becomes(s, s', l, s.leaders[Own(l, 1)].(status := P1Done))
  {
    hide Owner, Leads;
    var q :| Packet(Phase1Range(1, 1, b, promises), c.n, q) in s.net;
    var p := Packet(Phase1Range(1, 1, b, promises), c.n, q);
    s' := EndIsPossible(c, s, l, p);
    EndsOne(c, s, s', l, p);
    hide CodedFinishRange, Becomes;
    LeadsByStep(c, w, s, s', FinishRange(l, p));
  }

  lemma EndIsPossible(c: Config, s: Sys, l: nat, p: Packet) returns (s': Sys)
    requires p in s.net && p.hop == c.n && p.msg.Phase1Range? && Owner(p.msg.ballot) == l && p.msg.promises >= c.quorum
    requires forall i :: p.msg.from <= i <= p.msg.to ==> Own(l, i) in s.leaders && s.leaders[Own(l, i)].status == P1Pending
    ensures CodedFinishRange(c, s, s', l, p)
  {
    hide Owner;
    s' := s.(leaders := s.leaders + Ended(s, l, p.msg.from, p.msg.to),
             reports := s.reports + Unreported(p.msg.from, p.msg.to, p.msg.ballot, p.passed));
  }

  lemma EndsOne(c: Config, s: Sys, s': Sys, l: nat, p: Packet)
    requires CodedFinishRange(c, s, s', l, p) && p.msg.from == p.msg.to == 1 && p.msg.promises >= c.quorum
    ensures Own(l, 1) in s.leaders && Becomes(s, s', l, s.leaders[Own(l, 1)].(status := P1Done))
  {
    hide Owner;
    assert Own(l, p.msg.from) in s.leaders;
    var want := s.leaders[Own(l, 1) := s.leaders[Own(l, 1)].(status := P1Done)];
    assert forall o :: o in s'.leaders <==> o in want;
    assert forall o :: o in s'.leaders ==> s'.leaders[o] == want[o];
  }

  /** A phase 1 answer ends phase 1 of a record without a command, or is refused; with something reported, the
      guard is false. */
  lemma EndPhase1(c: Config, w: Branch, s: Sys, l: nat, m: Msg) returns (s': Sys)
    requires Own(l, 1) in s.leaders && Waits(s, m, c.n) && m.Phase1? && m.inst == 1 && Owner(m.ballot) == l
    requires Awaited1(s.leaders[Own(l, 1)], m) && s.leaders[Own(l, 1)].value.None? && Seq(m.highestPromised) < 0xFFFF
    requires m.promises < c.quorum || m.highestAccepted == 0 || w == Forgetting
    ensures Leads(c, w, s, s') && Becomes(s, s', l, OnPhase1(c.quorum, s.leaders[Own(l, 1)], m).rec)
  {
    hide Owner, Seq, Leads, OnPhase1;
    var q :| Packet(m, c.n, q) in s.net;
    var p := Packet(m, c.n, q);
    var r := s.leaders[Own(l, 1)];
    var reply := OnPhase1(c.quorum, r, m);
    var at := At(1, r.ballot);
    s' := s.(leaders := s.leaders[Own(l, 1) := reply.rec], net := s.net + Sent(reply.sends),
             reports := if m.promises >= c.quorum then s.reports[at := Report(q, m.highestAccepted, m.key)] else s.reports,
             proposals := if reply.rec.status == P2Pending then s.proposals[at := reply.rec.key] else s.proposals);
    assert CodedFinishPhase1(c, s, s', l, p);
    LeadsByStep(c, w, s, s', FinishPhase1(l, p));
  }

  lemma Propose1(c: Config, w: Branch, s: Sys, l: nat, key: Key, bytes: Bytes) returns (s': Sys)
    requires Own(l, 1) in s.leaders && key.seqnum > 0 && KeyOwner(key) == l
    requires s.leaders[Own(l, 1)].status == P1Done && s.leaders[Own(l, 1)].value.None?
    ensures var b := s.leaders[Own(l, 1)].ballot;
            && Leads(c, w, s, s') && Becomes(s, s', l, MRec(1, P2Pending, b, key, Some(bytes)))
            && Waits(s', CmdMap(1, key, bytes), 0) && Waits(s', Phase2(1, b, 0, key), 0)
  {
    hide Leads, KeyOwner;
    var r := s.leaders[Own(l, 1)];
    var r' := MRec(1, P2Pending, r.ballot, key, Some(bytes));
    var ms := [MappingMsg(r'), Phase2Msg(r')];
    s' := s.(leaders := s.leaders[Own(l, 1) := r'], net := s.net + Sent(ms),
             proposals := s.proposals[At(1, r.ballot) := key], values := s.values[InstKey(1, key) := bytes]);
    assert StartPhase2Step(c, s, s', l, 1, key, bytes);
    LeadsByStep(c, w, s, s', StartPhase2(l, 1, key, bytes));
    assert ms[0] in ms && ms[1] in ms;
    SentWaits(s', ms, ms[0]);
    SentWaits(s', ms, ms[1]);
  }

  lemma Close1(c: Config, w: Branch, s: Sys, l: nat, accepts: nat) returns (s': Sys)
    requires Own(l, 1) in s.leaders && s.leaders[Own(l, 1)].status == P2Pending && s.leaders[Own(l, 1)].inst == 1
    requires var r := s.leaders[Own(l, 1)]; Waits(s, Phase2(1, r.ballot, accepts, r.key), c.n) && accepts >= c.quorum
    ensures Leads(c, w, s, s') && Becomes(s, s', l, s.leaders[Own(l, 1)].(status := Done))
    ensures Waits(s', Acceptance(1, s.leaders[Own(l, 1)].key), 0)
  {
    hide Leads;
    var r := s.leaders[Own(l, 1)];
    var q :| Packet(Phase2(1, r.ballot, accepts, r.key), c.n, q) in s.net;
    var p := Packet(Phase2(1, r.ballot, accepts, r.key), c.n, q);
    var reply := OnPhase2(c.quorum, r, p.msg).value;
    s' := s.(leaders := s.leaders[Own(l, 1) := reply.rec], net := s.net + Sent(reply.sends),
             closed := if InstKey(1, r.key) !in s.closed then s.closed[InstKey(1, r.key) := r.ballot] else s.closed);
    assert FinishPhase2Step(c, s, s', l, p);
    LeadsByStep(c, w, s, s', FinishPhase2(l, p));
    SentWaits(s', reply.sends, reply.sends[0]);
  }

  // ----- trips round the ring -----

  /** Every acceptor that holds r turns m into m' and then holds r'. */
  ghost predicate Turns(m: Msg, m': Msg, r: Rec, r': Rec, unseen: bool) {
    RingMsg(m) && forall a :: Holds(a, r, unseen) ==> TurnsOne(a, m, m', r')
  }

  predicate TurnsOne(a: Acceptor, m: Msg, m': Msg, r': Rec)
    requires |a.slots| > 0
  {
    Handle(a, m).Some? && Handle(a, m).value.1 == [m'] && Holds(Handle(a, m).value.0, r', false)
  }

  lemma {:induction false} Trip(c: Config, w: Branch, s: Sys, k: nat, msg: nat -> Msg, r: Rec, r': Rec, unseen: bool)
    returns (s': Sys)
    requires k <= c.n && Split(c, s, k, r', r, unseen) && Waits(s, msg(k), k)
    requires forall i: nat :: i < c.n ==> Turns(msg(i), msg(i + 1), r, r', unseen)
    ensures Leads(c, w, s, s') && SameLeaders(s, s') && AllHold(c, s', r', false) && Waits(s', msg(c.n), c.n)
    decreases c.n - k
  {
    hide Handle, Leads, Gone, RecordOf;
    if k == c.n {
      LeadsNowhere(c, w, s);
      s' := s;
    } else {
      assert Turns(msg(k), msg(k + 1), r, r', unseen);
      assert TurnsOne(s.accs[k], msg(k), msg(k + 1), r');
      var s1 := Deliver1(c, w, s, msg(k), k, msg(k + 1));
      s' := Trip(c, w, s1, k + 1, msg, r, r', unseen);
      LeadsOn(c, w, s, s1, s');
    }
  }

  lemma {:induction false} LearnTrip(c: Config, w: Branch, s: Sys, k: nat, key: Key, bytes: Bytes, r: Rec)
    returns (s': Sys)
    requires k <= c.n && Split(c, s, k, r.(proposed := Some(Mapping(key, bytes))), r, false)
    requires Waits(s, CmdMap(1, key, bytes), 0) && r.proposed.None? && (r.accepted.Some? ==> r.accepted.value.key != key)
    ensures Leads(c, w, s, s') && SameLeaders(s, s')
    ensures AllHold(c, s', r.(proposed := Some(Mapping(key, bytes))), false)
    decreases c.n - k
  {
    hide Leads;
    if k == c.n {
      LeadsNowhere(c, w, s);
      s' := s;
    } else {
      Learns(s.accs[k], key, bytes, r);
      hide HandleCmdMap, Gone, RecordOf;
      var s1 := Learn1(c, w, s, CmdMap(1, key, bytes), k);
      s' := LearnTrip(c, w, s1, k + 1, key, bytes, r);
      LeadsOn(c, w, s, s1, s');
    }
  }

  lemma Learns(a: Acceptor, key: Key, bytes: Bytes, r: Rec)
    requires Holds(a, r, false) && r.proposed.None? && (r.accepted.Some? ==> r.accepted.value.key != key)
    ensures HandleCmdMap(a, CmdMap(1, key, bytes)).Some?
    ensures Holds(HandleCmdMap(a, CmdMap(1, key, bytes)).value, r.(proposed := Some(Mapping(key, bytes))), false)
  {
  }

  /** A range request for instance 1 on acceptors that have seen nothing. */
  function RangeAt(b: nat): nat -> Msg {
    (k: nat) => Phase1Range(1, 1, b, k)
  }

  lemma GrantsRange(b: nat, k: nat)
    ensures Turns(RangeAt(b)(k), RangeAt(b)(k + 1), FreshRec(1), Rec(1, b, 0, None, None), true)
  {
    forall a | Holds(a, FreshRec(1), true)
      ensures TurnsOne(a, RangeAt(b)(k), RangeAt(b)(k + 1), Rec(1, b, 0, None, None))
    {
      var seen := a.(highestSeen := 1);
      assert RecordOf(seen, 1) == FreshRec(1);
      var a' := Put(seen, FreshRec(1).(ballot := b));
      assert GrantRange(a', 2, 1, b) == Some(a');
      assert GrantRange(seen, 1, 1, b) == Some(a');
    }
  }

  /** A phase 1 request at a ballot that is high enough: it reports what the record has accepted. */
  function Request(b: nat, r: Rec, k: nat): Msg {
    if k == 0 then NewPhase1(1, b, 0) else Phase1(1, b, k, r.acceptBallot, 0, KeyOf(r.accepted), BytesOf(r.accepted))
  }

  function RequestAt(b: nat, r: Rec): nat -> Msg {
    (k: nat) => Request(b, r, k)
  }

  lemma Granted(a: Acceptor, r: Rec, m: Msg)
    requires Holds(a, r, false) && m.Phase1? && m.inst == 1 && r.ballot <= m.ballot
    ensures Handle(a, m).Some? && Handle(a, m).value.1 == [ForwardPhase1(r, m)]
    ensures Holds(Handle(a, m).value.0, r.(ballot := m.ballot), false)
  {
    hide ForwardPhase1;
  }

  lemma Forwards(b: nat, r: Rec, k: nat)
    requires r.ballot <= b && (r.acceptBallot == 0 ==> r.accepted.None?)
    ensures var m := Request(b, r, k);
            m.Phase1? && m.inst == 1 && m.ballot == b && ForwardPhase1(r, m) == Request(b, r, k + 1)
  {
  }

  lemma GrantsRequest(b: nat, r: Rec, k: nat)
    requires r.ballot <= b && (r.acceptBallot == 0 ==> r.accepted.None?)
    ensures Turns(RequestAt(b, r)(k), RequestAt(b, r)(k + 1), r, r.(ballot := b), false)
  {
    var m, m' := Request(b, r, k), Request(b, r, k + 1);
    Forwards(b, r, k);
    hide Handle, Holds, ForwardPhase1, Request;
    forall a | Holds(a, r, false)
      ensures |a.slots| > 0 && TurnsOne(a, m, m', r.(ballot := b))
    {
      Granted(a, r, m);
      HasSlots(a, r);
    }
  }

  lemma HasSlots(a: Acceptor, r: Rec)
    requires Holds(a, r, false)
    ensures |a.slots| > 0
  {
  }

  /** A phase 1 request at a ballot that is too low: it learns the promise. */
  function RefusedAt(b: nat, promised: nat): nat -> Msg {
    (k: nat) => Phase1(1, b, 0, 0, if k == 0 then 0 else promised, NULL_KEY, [])
  }

  lemma Refuses(b: nat, r: Rec, k: nat)
    requires b < r.ballot
    ensures Turns(RefusedAt(b, r.ballot)(k), RefusedAt(b, r.ballot)(k + 1), r, r, false)
  {
    forall a | Holds(a, r, false)
      ensures TurnsOne(a, RefusedAt(b, r.ballot)(k), RefusedAt(b, r.ballot)(k + 1), r)
    {
    }
  }

  function VoteAt(b: nat, key: Key): nat -> Msg {
    (k: nat) => Phase2(1, b, k, key)
  }

  lemma Accepts(b: nat, key: Key, bytes: Bytes, r: Rec, k: nat)
    requires r.ballot <= b && r.proposed == Some(Mapping(key, bytes)) && KeyOf(r.accepted) != key
    ensures Turns(VoteAt(b, key)(k), VoteAt(b, key)(k + 1), r, Rec(1, b, b, r.proposed, None), false)
  {
    forall a | Holds(a, r, false)
      ensures TurnsOne(a, VoteAt(b, key)(k), VoteAt(b, key)(k + 1), Rec(1, b, b, r.proposed, None))
    {
    }
  }

  // ----- one leader's phases -----

  lemma PhaseOfRange(c: Config, w: Branch, s: Sys, b: nat) returns (s': Sys)
    requires AllHold(c, s, FreshRec(1), true) && Waits(s, Phase1Range(1, 1, b, 0), 0)
    ensures Leads(c, w, s, s') && SameLeaders(s, s') && AllHold(c, s', Rec(1, b, 0, None, None), false)
    ensures Waits(s', Phase1Range(1, 1, b, c.n), c.n)
  {
    forall i: nat | i < c.n
      ensures Turns(RangeAt(b)(i), RangeAt(b)(i + 1), FreshRec(1), Rec(1, b, 0, None, None), true)
    {
      GrantsRange(b, i);
    }
    hide Turns, Leads, Holds;
    SplitAgain(c, s, FreshRec(1), Rec(1, b, 0, None, None), true);
    s' := Trip(c, w, s, 0, RangeAt(b), FreshRec(1), Rec(1, b, 0, None, None), true);
  }

  lemma SplitAgain(c: Config, s: Sys, r: Rec, r': Rec, unseen: bool)
    requires AllHold(c, s, r, unseen)
    ensures Split(c, s, 0, r', r, unseen)
  {
  }

  /** Phase 1 of one instance, on acceptors that grant it. */
  lemma PhaseOne(c: Config, w: Branch, s: Sys, l: nat, r: Rec) returns (s': Sys)
    requires Majority(c) && Own(l, 1) in s.leaders
    requires var rec := s.leaders[Own(l, 1)];
             && rec == MRec(1, P1Pending, rec.ballot, NULL_KEY, None) && Owner(rec.ballot) == l && r.ballot <= rec.ballot
    requires AllHold(c, s, r, false) && (r.acceptBallot == 0 ==> r.accepted.None?)
    requires r.acceptBallot == 0 || w == Forgetting
    ensures Leads(c, w, s, s') && s.net <= s'.net
    ensures s'.leaders == s.leaders[Own(l, 1) := s.leaders[Own(l, 1)].(status := P1Done)]
    ensures AllHold(c, s', r.(ballot := s.leaders[Own(l, 1)].ballot), false)
  {
    var b := s.leaders[Own(l, 1)].ballot;
    var s1 := Repeat1(c, w, s, l);
    forall i: nat | i < c.n
      ensures Turns(RequestAt(b, r)(i), RequestAt(b, r)(i + 1), r, r.(ballot := b), false)
    {
      GrantsRequest(b, r, i);
    }
    hide Turns, Leads, Holds, Owner;
    SplitAgain(c, s1, r, r.(ballot := b), false);
    var s2 := Trip(c, w, s1, 0, RequestAt(b, r), r, r.(ballot := b), false);
    s' := EndPhase1(c, w, s2, l, RequestAt(b, r)(c.n));
    LeadsOn(c, w, s, s1, s2);
    LeadsOn(c, w, s, s2, s');
  }

  /** Phase 2 of the leader's own key: every acceptor learns the mapping and accepts, and the key is announced. */
  lemma PhaseTwo(c: Config, w: Branch, s: Sys, l: nat, key: Key, bytes: Bytes, r: Rec) returns (s': Sys)
    requires Majority(c) && Own(l, 1) in s.leaders && key.seqnum > 0 && KeyOwner(key) == l
    requires var rec := s.leaders[Own(l, 1)]; rec.status == P1Done && rec.value.None? && r.ballot <= rec.ballot
    requires AllHold(c, s, r, false) && r.proposed.None? && KeyOf(r.accepted) != key
    ensures var b := s.leaders[Own(l, 1)].ballot;
            && Leads(c, w, s, s') && s.net <= s'.net && Waits(s', Acceptance(1, key), 0)
            && s'.leaders == s.leaders[Own(l, 1) := MRec(1, Done, b, key, Some(bytes))]
            && AllHold(c, s', Rec(1, b, b, Some(Mapping(key, bytes)), None), false)
  {
    var b, mapped := s.leaders[Own(l, 1)].ballot, r.(proposed := Some(Mapping(key, bytes)));
    forall i: nat | i < c.n
      ensures Turns(VoteAt(b, key)(i), VoteAt(b, key)(i + 1), mapped, Rec(1, b, b, mapped.proposed, None), false)
    {
      Accepts(b, key, bytes, mapped, i);
    }
    hide Turns, Leads, Holds, KeyOwner;
    var s1 := Propose1(c, w, s, l, key, bytes);
    SplitAgain(c, s1, r, mapped, false);
    var s2 := LearnTrip(c, w, s1, 0, key, bytes, r);
    SplitAgain(c, s2, mapped, Rec(1, b, b, mapped.proposed, None), false);
    WaitsOn(s1, s2, Phase2(1, b, 0, key), 0);
    var s3 := Trip(c, w, s2, 0, VoteAt(b, key), mapped, Rec(1, b, b, mapped.proposed, None), false);
    s' := Close1(c, w, s3, l, c.n);
    LeadsOn(c, w, s, s1, s2);
    LeadsOn(c, w, s, s2, s3);
    LeadsOn(c, w, s, s3, s');
  }

  lemma WaitsOn(s: Sys, s': Sys, m: Msg, hop: nat)
    requires Waits(s, m, hop) && s.net <= s'.net
    ensures Waits(s', m, hop)
  {
  }

  lemma StartHolds(c: Config)
    requires Majority(c)
    ensures AllHold(c, InitSys(c), FreshRec(1), true)
  {
  }

  lemma {:induction false} Chain(c: Config, w: Branch, states: seq<Sys>, k: nat)
    requires k < |states| && forall j :: 0 <= j < k ==> Leads(c, w, states[j], states[j + 1])
    ensures Leads(c, w, states[0], states[k])
  {
    hide Leads;
    if k == 0 {
      LeadsNowhere(c, w, states[0]);
    } else {
      Chain(c, w, states, k - 1);
      LeadsOn(c, w, states[0], states[k - 1], states[k]);
    }
  }

  lemma Same(c: Config, s: Sys, s': Sys, r: Rec, unseen: bool)
    requires AllHold(c, s, r, unseen) && s'.accs == s.accs
    ensures AllHold(c, s', r, unseen)
  {
  }

  // ----- the two runs -----

  predicate Proposer(l: nat, key: Key) {
    l < WORD16 && KeyOwner(key) == l && key.seqnum > 0
  }

  lemma FirstBallotIs(l: nat)
    requires l < WORD16
    ensures FirstBallot(l) == WORD16 + l && Owner(FirstBallot(l)) == l && Seq(FirstBallot(l)) == 1
  {
    assert l / 256 * 0x100 + l % 256 == l;
    Remainder(WORD16 + l, WORD16, 1, l);
  }

  lemma FirstBallotsGrow(l1: nat, l2: nat)
    requires l1 < l2 < WORD16
    ensures FirstBallot(l1) < FirstBallot(l2) < WORD32 && Seq(FirstBallot(l2)) == 1
    ensures Owner(FirstBallot(l1)) == l1 && Owner(FirstBallot(l2)) == l2
  {
    hide FirstBallot, Owner, Seq;
    FirstBallotIs(l1);
    FirstBallotIs(l2);
  }

  /** A run of the program in which at most one branch is taken with its guard false, and its disagreement. */
  ghost predicate Disagrees(c: Config, w: Branch, run: seq<Sys>, steps: seq<Step>,
                            p1: Packet, k1: Key, p2: Packet, k2: Key) {
    && IsCodedRun(c, run, steps)
    && (forall j :: 0 <= j < |steps| ==> Guarded(c, run[j], steps[j]) || Takes(steps[j], w))
    && p1 in run[|steps|].net && p1.msg == Acceptance(1, k1)
    && p2 in run[|steps|].net && p2.msg == Acceptance(1, k2)
  }

  lemma RunOf(c: Config, w: Branch, s: Sys, k1: Key, k2: Key)
    returns (run: seq<Sys>, steps: seq<Step>, p1: Packet, p2: Packet)
    requires Leads(c, w, InitSys(c), s) && Waits(s, Acceptance(1, k1), 0) && Waits(s, Acceptance(1, k2), 0)
    ensures Disagrees(c, w, run, steps, p1, k1, p2, k2)
  {
    hide CodedStep, Guarded, Takes;
    run, steps :| Path(c, w, run, steps) && run[0] == InitSys(c) && run[|run| - 1] == s;
    var q1 :| Packet(Acceptance(1, k1), 0, q1) in s.net;
    var q2 :| Packet(Acceptance(1, k2), 0, q2) in s.net;
    p1, p2 := Packet(Acceptance(1, k1), 0, q1), Packet(Acceptance(1, k2), 0, q2);
    forall j | 0 <= j < |steps|
      ensures CodedStep(c, run[j], run[j + 1], steps[j]) && (Guarded(c, run[j], steps[j]) || Takes(steps[j], w))
    {
      assert StepBut(c, w, run[j], run[j + 1], steps[j]);
    }
  }

  /** The first leader closes its key; the second ends phase 1 without a command of its own, forgets the reported one
      and closes another. For any two leaders, keys and values; the range guard holds all along. */
  lemma ForgottenReport(c: Config, l1: nat, k1: Key, v1: Bytes, l2: nat, k2: Key, v2: Bytes)
    returns (run: seq<Sys>, steps: seq<Step>, p1: Packet, p2: Packet)
    requires Majority(c) && l1 < l2 && Proposer(l1, k1) && Proposer(l2, k2)
    ensures k1 != k2 && Disagrees(c, Forgetting, run, steps, p1, k1, p2, k2)
  {
    FirstBallotsGrow(l1, l2);
    StartHolds(c);
    hide FirstBallot, Owner, Seq, Leads, Waits, AllHold, KeyOwner;
    var w, s0, b1, b2 := Forgetting, InitSys(c), FirstBallot(l1), FirstBallot(l2);
    var s1 := Open1(c, w, s0, l1);
    Same(c, s0, s1, FreshRec(1), true);
    var s2 := PhaseOfRange(c, w, s1, b1);
    var s3 := EndRange(c, w, s2, l1, b1, c.n);
    Same(c, s2, s3, Rec(1, b1, 0, None, None), false);
    var s4 := PhaseTwo(c, w, s3, l1, k1, v1, Rec(1, b1, 0, None, None));
    var s5 := Open1(c, w, s4, l2);
    var accepted := Rec(1, b1, b1, Some(Mapping(k1, v1)), None);
    Same(c, s4, s5, accepted, false);
    var s6 := PhaseOne(c, w, s5, l2, accepted);
    var s7 := PhaseTwo(c, w, s6, l2, k2, v2, accepted.(ballot := b2));
    Chain(c, w, [s0, s1, s2, s3, s4, s5, s6, s7], 7);
    WaitsOn(s4, s7, Acceptance(1, k1), 0);
    run, steps, p1, p2 := RunOf(c, w, s7, k1, k2);
  }

  lemma RaisedOverOther(l1: nat, l2: nat)
    requires l1 < l2 < WORD16
    ensures FirstBallot(l2) <= RaiseBallot(FirstBallot(l1), FirstBallot(l2)) && FirstBallot(l2) != 0
  {
    hide FirstBallot, RaiseBallot, Seq, Owner;
    FirstBallotsGrow(l1, l2);
    RaiseExceeds(FirstBallot(l1), FirstBallot(l2));
  }

  /** The first leader repeats phase 1 after the second closed its key: every acceptor refuses, the ballot is raised. */
  lemma Refused(c: Config, w: Branch, s: Sys, l: nat, r: Rec) returns (s': Sys)
    requires Majority(c) && Own(l, 1) in s.leaders && AllHold(c, s, r, false) && Seq(r.ballot) < 0xFFFF
    requires var rec := s.leaders[Own(l, 1)];
             rec == MRec(1, P1Pending, rec.ballot, NULL_KEY, None) && Owner(rec.ballot) == l && rec.ballot < r.ballot
    ensures Leads(c, w, s, s') && s.net <= s'.net && AllHold(c, s', r, false)
    ensures var rec := s.leaders[Own(l, 1)];
            s'.leaders == s.leaders[Own(l, 1) := rec.(ballot := RaiseBallot(rec.ballot, r.ballot))]
  {
    var b := s.leaders[Own(l, 1)].ballot;
    var s1 := Repeat1(c, w, s, l);
    forall i: nat | i < c.n
      ensures Turns(RefusedAt(b, r.ballot)(i), RefusedAt(b, r.ballot)(i + 1), r, r, false)
    {
      Refuses(b, r, i);
    }
    hide Turns, Leads, Holds, Owner, Seq, RaiseBallot;
    SplitAgain(c, s1, r, r, false);
    var s2 := Trip(c, w, s1, 0, RefusedAt(b, r.ballot), r, r, false);
    s' := EndPhase1(c, w, s2, l, RefusedAt(b, r.ballot)(c.n));
    Same(c, s2, s', r, false);
    LeadsOn(c, w, s, s1, s2);
    LeadsOn(c, w, s, s2, s');
  }

  /** The answer to the first leader's range is delayed. The second leader closes its key, the first repeats phase 1,
      is refused and raises its ballot; now the answer at the old ballot ends its phase 1, and it closes another key.
      For any two leaders, keys and values; nothing reported is ever forgotten. */
  lemma StaleRange(c: Config, l1: nat, k1: Key, v1: Bytes, l2: nat, k2: Key, v2: Bytes)
    returns (run: seq<Sys>, steps: seq<Step>, p1: Packet, p2: Packet)
    requires Majority(c) && l1 < l2 && Proposer(l1, k1) && Proposer(l2, k2)
    ensures k1 != k2 && Disagrees(c, LateRange, run, steps, p1, k1, p2, k2)
  {
    FirstBallotsGrow(l1, l2);
    RaisedOverOther(l1, l2);
    StartHolds(c);
    hide FirstBallot, RaiseBallot, Owner, Seq, Leads, Waits, AllHold, KeyOwner;
    var w, s0, b1, b2 := LateRange, InitSys(c), FirstBallot(l1), FirstBallot(l2);
    var promised, accepted := Rec(1, b1, 0, None, None), Rec(1, b2, b2, Some(Mapping(k2, v2)), None);
    var s1 := Open1(c, w, s0, l1);
    Same(c, s0, s1, FreshRec(1), true);
    var s2 := PhaseOfRange(c, w, s1, b1);
    var s3 := Open1(c, w, s2, l2);
    Same(c, s2, s3, promised, false);
    var s4 := PhaseOne(c, w, s3, l2, promised);
    var s5 := PhaseTwo(c, w, s4, l2, k2, v2, promised.(ballot := b2));
    var s6 := Refused(c, w, s5, l1, accepted);
    WaitsOn(s2, s6, Phase1Range(1, 1, b1, c.n), c.n);
    var s7 := EndRange(c, w, s6, l1, b1, c.n);
    Same(c, s6, s7, accepted, false);
    var s8 := PhaseTwo(c, w, s7, l1, k1, v1, accepted);
    Chain(c, w, [s0, s1, s2, s3, s4, s5, s6, s7, s8], 8);
    WaitsOn(s5, s8, Acceptance(1, k2), 0);
    run, steps, p1, p2 := RunOf(c, w, s8, k1, k2);
  }
}
