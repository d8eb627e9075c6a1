/** The whole system with its one fixed leader, over a network that loses, repeats, reorders and misroutes
    messages: total order, conservation of client values, and reuse of acceptor slots. */
module TotalOrder {
  import opened RingTypes
  import opened Ballots
  import opened LeaderRecord
  import opened DequeSpec
  import opened LeaderInv
  import opened LeaderTruth
  import opened AcceptorTruth
  import opened DeliverySpec
  import L = LeaderSpec
  import A = AcceptorSpec
  import F = AcceptorFacts

  /** The nodes, every message ever sent, and two histories: the client values the leader's queue took in, and
      the mappings given to instances 1, 2, 3, ... */
  datatype Sys = Sys(leader: L.Leader, accs: seq<A.Acceptor>, net: set<Msg>, submitted: seq<Bytes>, given: seq<Mapping>)

  datatype Step =
    | Submit(bytes: Bytes)
    | OpenPhase1
    | OpenPhase2
    | Timeouts(expired: set<nat>)
    | ToLeader(m: Msg)
    | AskMapping(inst: nat, repeat: bool)
    | AskChosen(inst: nat)
    | ToAcceptor(a: nat, m: Msg)

  function Sends(ms: seq<Msg>): set<Msg> {
    set m | m in ms
  }

  function After(s: Sys, r: Option<(L.Leader, seq<Msg>)>): Option<Sys> {
    match r
    case None => None
    case Some((l, sends)) => Some(s.(leader := l, net := s.net + Sends(sends)))
  }

  function SubmitStep(c: L.Config, s: Sys, bytes: Bytes): Option<Sys> {
    var taken := Fits(s.leader.queue, c.queueLength, |bytes|);
    Some(s.(leader := L.Submit(c, s.leader, bytes), submitted := if taken then s.submitted + [bytes] else s.submitted))
  }

  function OpenPhase2Step(c: L.Config, s: Sys): Option<Sys>
    requires |s.leader.slots| > 0
  {
    match L.OpenPhase2(c, s.leader, 0)
    case None => None
    case Some((l, sends, mappings)) => Some(s.(leader := l, net := s.net + Sends(sends), given := s.given + mappings))
  }

  function LeaderStep(c: L.Config, s: Sys, m: Msg): Option<Sys>
    requires |s.leader.slots| > 0
  {
    match m
    case Phase1(_, _, _, _, _, _, _) => After(s, L.HandlePhase1(c, s.leader, m))
    case Phase1Range(_, _, _, _) => After(s, L.HandlePhase1Range(c, s.leader, m))
    case Phase2(_, _, _, _) => After(s, L.HandlePhase2(c, s.leader, m))
    case CmdMap(_, _, _) => Some(s)
    case Acceptance(_, _) => Some(s)
  }

  function AcceptorStep(s: Sys, a: nat, m: Msg): Option<Sys>
    requires a < |s.accs| && |s.accs[a].slots| > 0
  {
    match A.Handle(s.accs[a], m)
    case None => None
    case Some((acc, sends)) => Some(s.(accs := s.accs[a := acc], net := s.net + Sends(sends)))
  }

  /** The state after a step; None when a node's assertion fails, which stops the node. Nothing relates a
      message to the node it is meant for or to how often it was received. */
  function Do(c: L.Config, s: Sys, step: Step): Option<Sys>
    requires |s.leader.slots| > 0 && forall a :: 0 <= a < |s.accs| ==> |s.accs[a].slots| > 0
  {
    match step
    case Submit(bytes) => SubmitStep(c, s, bytes)
    case OpenPhase1 => After(s, L.OpenPhase1(c, s.leader))
    case OpenPhase2 => OpenPhase2Step(c, s)
    case Timeouts(expired) => After(s, L.CheckExpired(s.leader, s.leader.highestClosed + 1, L.Highest(s.leader), expired))
    case ToLeader(m) => if m in s.net then LeaderStep(c, s, m) else None
    case AskMapping(inst, repeat) => if Askable(s, inst) then After(s, L.HandleMapRequest(s.leader, inst, repeat)) else None
    case AskChosen(inst) => if Askable(s, inst) then After(s, L.HandleChosenRequest(s.leader, inst)) else None
    case ToAcceptor(a, m) => if a < |s.accs| && m in s.net then AcceptorStep(s, a, m) else None
  }

  /** Learners ask for instances that some broadcast told them of. */
  predicate Askable(s: Sys, inst: nat) {
    0 < inst <= s.leader.highestOpen
  }

  function Init(c: L.Config, n: nat): Sys {
    Sys(L.InitLeader(c), seq(n, _ => A.InitAcceptor(c.workingSet)), {}, [], [])
  }

  // ----- the invariant -----

  ghost predicate Conserved(s: Sys) {
    && |s.submitted| == |s.given| + |s.leader.queue|
    && (forall j :: 0 <= j < |s.given| ==> s.given[j].bytes == s.submitted[j])
    && (forall j :: 0 <= j < |s.leader.queue| ==> s.leader.queue[j].data == s.submitted[|s.given| + j])
  }

  ghost predicate NetTrue(c: L.Config, s: Sys) {
    forall m :: m in s.net ==> MsgTrue(c, s.given, s.leader.p1HighestOpen, m)
  }

  ghost predicate AccsTrue(c: L.Config, s: Sys) {
    forall a :: 0 <= a < |s.accs| ==> AccTrue(c, s.given, s.leader.p1HighestOpen, s.accs[a])
  }

  ghost predicate Inv(c: L.Config, s: Sys) {
    LeaderTrue(c, s.given, s.leader) && Conserved(s) && NetTrue(c, s) && AccsTrue(c, s)
  }

  /** Histories and bounds only grow, messages stay in the network. */
  predicate Grown(s: Sys, s': Sys) {
    && s.submitted <= s'.submitted && s.given <= s'.given && s.net <= s'.net && |s'.accs| == |s.accs|
    && s.leader.p1HighestOpen <= s'.leader.p1HighestOpen && s.leader.highestClosed <= s'.leader.highestClosed
  }

  lemma Sizes(c: L.Config, s: Sys)
    requires Inv(c, s)
    ensures |s.leader.slots| > 0 && forall a :: 0 <= a < |s.accs| ==> |s.accs[a].slots| > 0
    ensures |s.given| == s.leader.highestOpen <= s.leader.p1HighestOpen && s.leader.highestClosed <= s.leader.highestOpen
    ensures s.leader.p1HighestOpen < s.leader.highestClosed + c.workingSet
  {
    hide LeaderTrue, LeaderInv.LeaderOk;
    LeaderOfTrue(c, s.given, s.leader);
    LeaderBounds(c, s.leader);
    forall a | 0 <= a < |s.accs|
      ensures |s.accs[a].slots| > 0
    {
      AccSize(c, s.given, s.leader.p1HighestOpen, s.accs[a]);
    }
  }

  lemma InitKeeps(c: L.Config, n: nat)
    requires L.ValidConfig(c)
    ensures Inv(c, Init(c, n))
  {
    LeaderInv.InitOk(c);
  }

  /** A step of the leader that changes no acceptor: enough that the leader and what it sends are true. */
  lemma LeaderMoves(c: L.Config, s: Sys, s': Sys, sends: seq<Msg>)
    requires Inv(c, s) && s'.accs == s.accs && s'.net == s.net + Sends(sends) && s.given <= s'.given
    requires LeaderTrue(c, s'.given, s'.leader) && s.leader.p1HighestOpen <= s'.leader.p1HighestOpen
    requires AllTrue(c, s'.given, s'.leader.p1HighestOpen, sends) && Conserved(s')
    ensures Inv(c, s')
  {
    hide LeaderTrue, MsgTrue, AccTrue, Conserved;
    var p, p' := s.leader.p1HighestOpen, s'.leader.p1HighestOpen;
    forall m | m in s'.net
      ensures MsgTrue(c, s'.given, p', m)
    {
      if m in s.net {
        StaysTrue(c, s.given, p, s'.given, p', m);
      }
    }
    forall a | 0 <= a < |s'.accs|
      ensures AccTrue(c, s'.given, p', s'.accs[a])
    {
      AccStaysTrue(c, s.given, p, s'.given, p', s.accs[a]);
    }
  }

  lemma SubmitKeeps(c: L.Config, s: Sys, bytes: Bytes)
    requires Inv(c, s)
    ensures Inv(c, SubmitStep(c, s, bytes).value) && Grown(s, SubmitStep(c, s, bytes).value)
  {
    hide MsgTrue, AccTrue, LeaderTrue, Fits;
    var s' := SubmitStep(c, s, bytes).value;
    QueueIgnored(c, s.given, s.leader, s'.leader.queue);
    assert s'.net == s.net + Sends([]);
    LeaderMoves(c, s, s', []);
  }

  lemma QueueIgnored(c: L.Config, given: seq<Mapping>, l: L.Leader, q: seq<Elem<Bytes>>)
    requires LeaderTrue(c, given, l)
    ensures LeaderTrue(c, given, l.(queue := q))
  {
    hide Band, RecTrue;
    var l' := l.(queue := q);
    forall k | 0 <= k < |l'.slots|
      ensures SlotOk(l', k)
    {
      assert SlotOk(l, k) && Band(l', l.slots[k]) == Band(l, l.slots[k]) by {
        BandIgnoresQueue(l, l.slots[k], q);
      }
    }
    assert forall i :: L.Slot(l', i) == L.Slot(l, i);
  }

  lemma BandIgnoresQueue(l: L.Leader, r: MRec, q: seq<Elem<Bytes>>)
    ensures Band(l.(queue := q), r) == Band(l, r)
  {
  }

  lemma OpenPhase1StepKeeps(c: L.Config, s: Sys)
    requires Inv(c, s)
    ensures |s.leader.slots| > 0 && L.OpenPhase1(c, s.leader).Some?
    ensures var s' := After(s, L.OpenPhase1(c, s.leader)).value; Inv(c, s') && Grown(s, s')
  {
    hide LeaderTrue, MsgTrue, AccTrue, L.OpenPhase1, LeaderInv.LeaderOk;
    Sizes(c, s);
    OpenPhase1True(c, s.given, s.leader);
    OpenPhase1Keeps(c, s.leader) by { LeaderOfTrue(c, s.given, s.leader); }
    var (l, sends) := L.OpenPhase1(c, s.leader).value;
    LeaderMoves(c, s, After(s, L.OpenPhase1(c, s.leader)).value, sends);
  }

  lemma OpenPhase2StepKeeps(c: L.Config, s: Sys)
    requires Inv(c, s)
    ensures |s.leader.slots| > 0 && OpenPhase2Step(c, s).Some?
    ensures var s' := OpenPhase2Step(c, s).value; Inv(c, s') && Grown(s, s')
  {
    hide LeaderTrue, MsgTrue, AccTrue, L.OpenPhase2, LeaderInv.LeaderOk;
    Sizes(c, s);
    OpenPhase2True(c, s.given, s.leader, 0);
    OpenPhase2Keeps(c, s.leader, 0) by { LeaderOfTrue(c, s.given, s.leader); }
    var (l, sends, mappings) := L.OpenPhase2(c, s.leader, 0).value;
    var s' := OpenPhase2Step(c, s).value;
    TakenFromQueue(s, s', mappings);
    LeaderMoves(c, s, s', sends);
  }

  /** The front of the queue moves to the instances: nothing is lost, repeated or reordered. */
  lemma TakenFromQueue(s: Sys, s': Sys, mappings: seq<Mapping>)
    requires Conserved(s) && s'.submitted == s.submitted && s'.given == s.given + mappings
    requires |mappings| <= |s.leader.queue| && s'.leader.queue == s.leader.queue[|mappings|..]
    requires forall j :: 0 <= j < |mappings| ==> mappings[j].bytes == s.leader.queue[j].data
    ensures Conserved(s')
  {
    forall j | 0 <= j < |s'.given|
      ensures s'.given[j].bytes == s'.submitted[j]
    {
      if j >= |s.given| {
        assert s.leader.queue[j - |s.given|].data == s.submitted[|s.given| + (j - |s.given|)];
      }
    }
    forall j | 0 <= j < |s'.leader.queue|
      ensures s'.leader.queue[j].data == s'.submitted[|s'.given| + j]
    {
      assert s.leader.queue[|mappings| + j].data == s.submitted[|s.given| + (|mappings| + j)];
    }
  }

  lemma TimeoutsKeep(c: L.Config, s: Sys, expired: set<nat>)
    requires Inv(c, s)
    ensures |s.leader.slots| > 0
    ensures var r := L.CheckExpired(s.leader, s.leader.highestClosed + 1, L.Highest(s.leader), expired);
            r.Some? && Inv(c, After(s, r).value) && Grown(s, After(s, r).value)
  {
    hide LeaderTrue, MsgTrue, AccTrue, L.CheckExpired;
    Sizes(c, s);
    var r := L.CheckExpired(s.leader, s.leader.highestClosed + 1, L.Highest(s.leader), expired);
    CheckExpiredTrue(c, s.given, s.leader, s.leader.highestClosed + 1, L.Highest(s.leader), expired);
    LeaderMoves(c, s, After(s, r).value, r.value.1);
  }

  /** The leader never aborts on a phase 1 or phase 2 message. */
  lemma LeaderStepKeeps(c: L.Config, s: Sys, m: Msg)
    requires Inv(c, s) && m in s.net
    ensures |s.leader.slots| > 0 && (!m.Phase1Range? ==> LeaderStep(c, s, m).Some?)
    ensures LeaderStep(c, s, m).Some? ==> Inv(c, LeaderStep(c, s, m).value) && Grown(s, LeaderStep(c, s, m).value)
  {
    hide LeaderTrue, MsgTrue, AccTrue, L.HandlePhase1, L.HandlePhase1Range, L.HandlePhase2;
    Sizes(c, s);
    match m
    case Phase1(_, _, _, _, _, _, _) =>
      HandlePhase1True(c, s.given, s.leader, m);
      LeaderMoves(c, s, LeaderStep(c, s, m).value, L.HandlePhase1(c, s.leader, m).value.1);
    case Phase1Range(_, _, _, _) =>
      if L.HandlePhase1Range(c, s.leader, m).Some? {
        HandlePhase1RangeTrue(c, s.given, s.leader, m);
        LeaderMoves(c, s, LeaderStep(c, s, m).value, L.HandlePhase1Range(c, s.leader, m).value.1);
      }
    case Phase2(_, _, _, _) =>
      HandlePhase2True(c, s.given, s.leader, m);
      LeaderMoves(c, s, LeaderStep(c, s, m).value, L.HandlePhase2(c, s.leader, m).value.1);
    case CmdMap(_, _, _) =>
    case Acceptance(_, _) =>
  }

  /** An assigned instance whose record is still there can be asked for; the record is left as it is. */
  lemma AskedRecord(c: L.Config, s: Sys, inst: nat)
    requires Inv(c, s) && Askable(s, inst)
    ensures |s.leader.slots| > 0
    ensures L.Get(s.leader, inst).Some? ==>
      && L.Get(s.leader, inst).value == s.leader
      && AllTrue(c, s.given, s.leader.p1HighestOpen,
                 [MappingMsg(L.Slot(s.leader, inst)), Acceptance(inst, L.Slot(s.leader, inst).key)])
      && L.Slot(s.leader, inst).inst == inst
  {
    hide FirstBallot, AccTrue, NetTrue, Conserved;
    Sizes(c, s);
    var l := s.leader;
    var r := L.Slot(l, inst);
    assert SlotOk(l, inst % |l.slots|);
    assert RecTrue(c, s.given, l.p1HighestOpen, r);
    SlotKept(c, l, inst);
  }

  /** No slot holds an older instance than one at or below the open bound. */
  lemma SlotKept(c: L.Config, l: L.Leader, inst: nat)
    requires LeaderOk(c, l) && 0 < inst <= l.highestOpen
    ensures L.Get(l, inst).Some? ==> L.Slot(l, inst).inst == inst
  {
    assert L.Slot(l, inst).inst >= inst;
  }

  lemma AskKeeps(c: L.Config, s: Sys, inst: nat, repeat: bool)
    requires Inv(c, s) && Askable(s, inst)
    ensures |s.leader.slots| > 0
    ensures var r := L.HandleMapRequest(s.leader, inst, repeat);
            r.Some? ==> Inv(c, After(s, r).value) && Grown(s, After(s, r).value)
    ensures var r := L.HandleChosenRequest(s.leader, inst);
            r.Some? ==> Inv(c, After(s, r).value) && Grown(s, After(s, r).value)
  {
    hide LeaderTrue, MsgTrue, AccTrue, L.Get, L.Slot;
    Sizes(c, s);
    AskedRecord(c, s, inst);
    if L.Get(s.leader, inst).Some? {
      var m, a := MappingMsg(L.Slot(s.leader, inst)), Acceptance(inst, L.Slot(s.leader, inst).key);
      assert m in [m, a] && a in [m, a];
      var r1 := L.HandleMapRequest(s.leader, inst, repeat);
      LeaderMoves(c, s, After(s, r1).value, r1.value.1);
      var r2 := L.HandleChosenRequest(s.leader, inst);
      LeaderMoves(c, s, After(s, r2).value, r2.value.1);
    }
  }

  lemma HistoryKeys(c: L.Config, s: Sys)
    requires Inv(c, s)
    ensures c.id > 0 && FirstBallot(c) > 0 && forall j :: 0 <= j < |s.given| ==> s.given[j].key.mcaster == c.id
  {
    hide MakeFirstBallot, AccTrue, Conserved, NetTrue, Slots, Present, HeadOpen, RecTrue;
    FirstBallotPositive(c);
  }

  lemma AcceptorStepKeeps(c: L.Config, s: Sys, a: nat, m: Msg)
    requires Inv(c, s) && a < |s.accs| && m in s.net
    ensures |s.accs[a].slots| > 0 && (AcceptorStep(s, a, m).None? <==> exists i :: Concerns(m, i) && A.Gone(s.accs[a], i))
    ensures AcceptorStep(s, a, m).Some? ==> Inv(c, AcceptorStep(s, a, m).value) && Grown(s, AcceptorStep(s, a, m).value)
  {
    hide LeaderTrue, MsgTrue, AccTrue, A.Handle, A.Gone, FirstBallot;
    Sizes(c, s);
    HistoryKeys(c, s);
    AcceptorTruth.HandleTrue(c, s.given, s.leader.p1HighestOpen, s.accs[a], m);
  }
}
