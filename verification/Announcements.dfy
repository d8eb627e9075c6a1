/** Everything assigned and everything closed has been broadcast, so every learner can deliver everything closed. */
module Announcements {
  import opened RingTypes
  import opened Ballots
  import opened LeaderRecord
  import opened LeaderInv
  import opened LeaderTruth
  import opened AcceptorTruth
  import opened DeliverySpec
  import opened TotalOrder
  import opened TotalOrderRuns
  import L = LeaderSpec
  import A = AcceptorSpec

  function MapOf(given: seq<Mapping>, j: nat): Msg
    requires j < |given|
  {
    CmdMap(j + 1, given[j].key, given[j].bytes)
  }

  function ChoiceOf(given: seq<Mapping>, j: nat): Msg
    requires j < |given|
  {
    Acceptance(j + 1, given[j].key)
  }

  predicate MapsSent(given: seq<Mapping>, net: set<Msg>) {
    forall j :: 0 <= j < |given| ==> MapOf(given, j) in net
  }

  predicate ChoicesSent(given: seq<Mapping>, l: L.Leader, net: set<Msg>) {
    && (forall j :: 0 <= j < l.highestClosed && j < |given| ==> ChoiceOf(given, j) in net)
    && (forall k :: 0 <= k < |l.slots| ==> DoneSent(l.slots[k], net))
  }

  predicate DoneSent(r: MRec, net: set<Msg>) {
    r.status == Done ==> Acceptance(r.inst, r.key) in net
  }

  /** Every assignment was broadcast, and the choice of every instance that is done. */
  predicate Announced(s: Sys) {
    MapsSent(s.given, s.net) && ChoicesSent(s.given, s.leader, s.net)
  }

  // ----- steps that finish nothing -----

  /** The closed bound stays, and no record becomes done. */
  ghost predicate Quiet(l: L.Leader, l': L.Leader) {
    && |l'.slots| == |l.slots| && l'.highestClosed == l.highestClosed
    && forall k :: 0 <= k < |l.slots| ==> l'.slots[k] == l.slots[k] || l'.slots[k].status != Done
  }

  lemma QuietTrans(l: L.Leader, l1: L.Leader, l2: L.Leader)
    requires Quiet(l, l1) && Quiet(l1, l2)
    ensures Quiet(l, l2)
  {
  }

  lemma QuietKeeps(s: Sys, s': Sys)
    requires Announced(s) && Quiet(s.leader, s'.leader) && s.net <= s'.net && s.given <= s'.given
    requires s.leader.highestClosed <= |s.given| && MapsSent(s'.given, s'.net)
    ensures Announced(s')
  {
    forall j | 0 <= j < s'.leader.highestClosed && j < |s'.given|
      ensures ChoiceOf(s'.given, j) in s'.net
    {
      assert ChoiceOf(s'.given, j) == ChoiceOf(s.given, j);
    }
    forall k | 0 <= k < |s'.leader.slots|
      ensures DoneSent(s'.leader.slots[k], s'.net)
    {
      assert DoneSent(s.leader.slots[k], s.net);
    }
  }

  /** A record of a range that is opened is waiting for phase 1 afterwards. */
  lemma {:induction false} PreparePends(l: L.Leader, from: nat, last: nat, b: nat)
    requires |l.slots| > 0 && L.PrepareRange(l, from, last, b).Some?
    ensures var l' := L.PrepareRange(l, from, last, b).value;
            && |l'.slots| == |l.slots|
            && forall k :: 0 <= k < |l.slots| ==> l'.slots[k] == l.slots[k] || l'.slots[k].status == P1Pending
    decreases last + 1 - from
  {
    if from <= last {
      var l1 := L.Get(l, from).value;
      var l2 := L.SetSlot(l1, L.Slot(l1, from).(status := P1Pending, ballot := b));
      PreparePends(l2, from + 1, last, b);
      GetOneSlot(l, from);
    }
  }

  lemma OpenPhase1Pends(c: L.Config, l: L.Leader)
    requires |l.slots| > 0 && L.OpenPhase1(c, l).Some?
    ensures var l' := L.OpenPhase1(c, l).value.0;
            && |l'.slots| == |l.slots|
            && forall k :: 0 <= k < |l.slots| ==> l'.slots[k] == l.slots[k] || l'.slots[k].status == P1Pending
  {
    hide L.PrepareRange;
    var active := L.ActiveCount(l);
    if active < c.preexec / 2 {
      PreparePends(l, l.p1HighestOpen + 1, l.p1HighestOpen + (c.preexec - active), FirstBallot(c));
    }
  }

  /** The records that a granted range finishes, the first of them in particular. */
  lemma {:induction false} FinishRangeEnds(l: L.Leader, i: nat, last: nat)
    requires |l.slots| > 0 && L.FinishRange(l, i, last).Some?
    ensures var l' := L.FinishRange(l, i, last).value;
            && |l'.slots| == |l.slots|
            && (forall k :: 0 <= k < |l.slots| ==> l'.slots[k] == l.slots[k] || l'.slots[k].status == P1Done)
            && (i <= last ==> L.Slot(l', i).status == P1Done)
    decreases last + 1 - i
  {
    if i <= last {
      var l1 := L.Get(l, i).value;
      var l2 := L.SetSlot(l1, OnRange(L.Slot(l1, i)).value);
      GetOneSlot(l, i);
      FinishRangeEnds(l2, i + 1, last);
    }
  }

  lemma OpenOneQuiet(c: L.Config, l: L.Leader)
    requires LeaderOk(c, l) && L.OpenOne(c, l).Opened?
    ensures Quiet(l, L.OpenOne(c, l).leader)
    ensures var o := L.OpenOne(c, l); CmdMap(l.highestOpen + 1, o.mapping.key, o.mapping.bytes) in o.sends
  {
    hide L.UnsignedRoom, L.NextSeqNumber;
    OpenOneKeeps(c, l);
    hide LeaderOk;
    GetOneSlot(l, l.highestOpen + 1);
    var o := L.OpenOne(c, l);
    assert o.sends[0] in o.sends;
  }

  lemma {:induction false} OpenPhase2Quiet(c: L.Config, l: L.Leader, count: nat)
    requires LeaderOk(c, l) && |l.slots| > 0
    ensures L.OpenPhase2(c, l, count).Some? && Quiet(l, L.OpenPhase2(c, l, count).value.0)
    ensures var (l', sends, mappings) := L.OpenPhase2(c, l, count).value;
            forall j :: 0 <= j < |mappings| ==> CmdMap(l.highestOpen + 1 + j, mappings[j].key, mappings[j].bytes) in sends
    decreases |l.queue|
  {
    hide LeaderOk, L.OpenOne, Quiet;
    OpenPhase2Keeps(c, l, count);
    OpenOneKeeps(c, l);
    SelfQuiet(l);
    if L.OpenOne(c, l).Opened? {
      var o := L.OpenOne(c, l);
      OpenOneQuiet(c, l);
      if count + 1 < c.maxPerIteration {
        LeaderBounds(c, o.leader);
        OpenPhase2Quiet(c, o.leader, count + 1);
        var (l2, sends2, mappings) := L.OpenPhase2(c, o.leader, count + 1).value;
        QuietTrans(l, o.leader, l2);
        var all := [o.mapping] + mappings;
        forall j | 0 <= j < |all|
          ensures CmdMap(l.highestOpen + 1 + j, all[j].key, all[j].bytes) in o.sends + sends2
        {
          if j > 0 {
            assert all[j] == mappings[j - 1];
          }
        }
      }
    }
  }

  lemma SelfQuiet(l: L.Leader)
    ensures Quiet(l, l)
  {
  }

  lemma OpenPhase1Announces(c: L.Config, s: Sys, s': Sys)
    requires Inv(c, s) && Announced(s) && Next(c, s, s', OpenPhase1)
    ensures Announced(s')
  {
    hide Inv, Announced, L.OpenPhase1, LeaderOk, LeaderTrue;
    Sizes(c, s);
    OpenPhase1Pends(c, s.leader);
    OpenPhase1Keeps(c, s.leader) by { LeaderIs(c, s); }
    MapsStay(s, s');
    QuietKeeps(s, s');
  }

  lemma MapsStay(s: Sys, s': Sys)
    requires Announced(s) && s'.given == s.given && s.net <= s'.net
    ensures MapsSent(s'.given, s'.net)
  {
  }

  lemma OpenPhase2Announces(c: L.Config, s: Sys, s': Sys)
    requires Inv(c, s) && Announced(s) && Next(c, s, s', OpenPhase2)
    ensures Announced(s')
  {
    hide Inv, L.OpenPhase2, LeaderOk, LeaderTrue, Quiet, ChoicesSent;
    Sizes(c, s);
    LeaderIs(c, s);
    OpenPhase2Quiet(c, s.leader, 0);
    var (l, sends, mappings) := L.OpenPhase2(c, s.leader, 0).value;
    assert s'.given == s.given + mappings && s'.net == s.net + Sends(sends);
    forall j | 0 <= j < |s'.given|
      ensures MapOf(s'.given, j) in s'.net
    {
      if j < |s.given| {
        assert MapOf(s.given, j) in s.net;
      } else {
        var d := j - |s.given|;
        assert mappings[d] == s'.given[j];
        assert CmdMap(s.leader.highestOpen + 1 + d, mappings[d].key, mappings[d].bytes) in sends;
      }
    }
    QuietKeeps(s, s');
  }

  lemma TimeoutsAnnounce(c: L.Config, s: Sys, s': Sys, expired: set<nat>)
    requires Inv(c, s) && Announced(s) && Next(c, s, s', Timeouts(expired))
    ensures Announced(s')
  {
    hide Inv, Announced, L.CheckExpired, LeaderOk, LeaderTrue;
    Sizes(c, s);
    LeaderIs(c, s);
    CheckExpiredKeeps(c, s.leader, s.leader.highestClosed + 1, L.Highest(s.leader), expired);
    MapsStay(s, s');
    QuietKeeps(s, s');
  }

  // ----- answers from the ring -----

  lemma Phase1Quiet(c: L.Config, given: seq<Mapping>, l: L.Leader, m: Msg)
    requires LeaderTrue(c, given, l) && |l.slots| > 0 && m.Phase1? && MsgTrue(c, given, l.p1HighestOpen, m)
    ensures L.HandlePhase1(c, l, m).Some? && Quiet(l, L.HandlePhase1(c, l, m).value.0)
  {
    hide IsMyBallot, LeaderTrue, FirstBallot;
    HandlePhase1True(c, given, l, m);
    if m.inst > l.highestClosed && IsMyBallot(m.ballot, c.id, c.incarnation) {
      OnlyLeaderIsNeverRefused(c, given, l, m);
    }
  }

  lemma RangeQuiet(c: L.Config, l: L.Leader, m: Msg)
    requires |l.slots| > 0 && m.Phase1Range? && LeaderOk(c, l) && m.to <= l.p1HighestOpen
    requires L.HandlePhase1Range(c, l, m).Some?
    ensures Quiet(l, L.HandlePhase1Range(c, l, m).value.0)
  {
    hide IsMyBallot, LeaderOk, L.FinishRange;
    HandlePhase1RangeKeeps(c, l, m);
    if IsMyBallot(m.ballot, c.id, c.incarnation) && m.from > l.highestClosed && m.promises >= c.quorum {
      FinishRangeEnds(l, m.from, m.to);
    }
  }

  lemma {:induction false} AdvanceAnnounces(c: L.Config, given: seq<Mapping>, l: L.Leader, net: set<Msg>)
    requires Core(c, l) && SlotsTrue(c, given, l) && ChoicesSent(given, l, net)
    ensures L.AdvanceClosed(l).Some? && ChoicesSent(given, L.AdvanceClosed(l).value, net)
    decreases l.highestOpen - l.highestClosed
  {
    hide Core, L.Slot, SlotsTrue;
    AdvanceKeeps(c, l);
    HeadPresent(c, l);
    var next := l.highestClosed + 1;
    if l.highestClosed < l.highestOpen && L.Slot(l, next).inst == next && L.Slot(l, next).status == Done {
      StepClosed(c, l);
      NextSlots(c, l);
      var l1 := L.Get(l.(highestClosed := next), next + 1).value;
      ClosedChoice(c, given, l, net);
      SlotsOrNextTrue(c, given, l, l1) by { CoreBounds(c, l); }
      NextChoices(given, l, net);
      AdvanceAnnounces(c, given, l1, net);
    }
  }

  lemma CoreBounds(c: L.Config, l: L.Leader)
    requires Core(c, l)
    ensures l.highestOpen <= l.p1HighestOpen
  {
  }

  lemma ClosedChoice(c: L.Config, given: seq<Mapping>, l: L.Leader, net: set<Msg>)
    requires SlotsTrue(c, given, l) && ChoicesSent(given, l, net) && |l.slots| > 0 && l.highestClosed < l.highestOpen
    requires var r := L.Slot(l, l.highestClosed + 1); r.inst == l.highestClosed + 1 && r.status == Done
    ensures l.highestClosed < |given| && ChoiceOf(given, l.highestClosed) in net
  {
    hide FirstBallot;
    var k := (l.highestClosed + 1) % |l.slots|;
    assert RecTrue(c, given, l.p1HighestOpen, l.slots[k]) && DoneSent(l.slots[k], net);
  }

  lemma NextChoices(given: seq<Mapping>, l: L.Leader, net: set<Msg>)
    requires |l.slots| > 0 && ChoicesSent(given, l, net)
    requires l.highestClosed < |given| ==> ChoiceOf(given, l.highestClosed) in net
    requires L.Get(l.(highestClosed := l.highestClosed + 1), l.highestClosed + 2).Some?
    ensures ChoicesSent(given, L.Get(l.(highestClosed := l.highestClosed + 1), l.highestClosed + 2).value, net)
  {
    var l0 := l.(highestClosed := l.highestClosed + 1);
    var l1 := L.Get(l0, l.highestClosed + 2).value;
    forall k | 0 <= k < |l1.slots|
      ensures DoneSent(l1.slots[k], net)
    {
      assert DoneSent(l.slots[k], net);
    }
  }

  lemma Phase2Announces(c: L.Config, given: seq<Mapping>, l: L.Leader, m: Msg, net: set<Msg>)
    requires LeaderTrue(c, given, l) && |l.slots| > 0 && m.Phase2? && MsgTrue(c, given, l.p1HighestOpen, m)
    requires ChoicesSent(given, l, net)
    ensures L.HandlePhase2(c, l, m).Some?
    ensures var (l', sends) := L.HandlePhase2(c, l, m).value; ChoicesSent(given, l', net + Sends(sends))
  {
    hide FirstBallot, L.Slot, L.SetSlot, L.Get, SlotsTrue, L.AdvanceClosed, Core, ChoicesSent;
    HandlePhase2True(c, given, l, m);
    LeaderBounds(c, l);
    LeaderOfTrue(c, given, l);
    var sends := L.HandlePhase2(c, l, m).value.1;
    MoreChoices(given, l, net, net + Sends(sends));
    if m.inst > l.highestClosed {
      RecordMessages(c, given, l, m.inst);
      var r := L.Slot(l, m.inst);
      var reply := OnPhase2(c.quorum, r, m).value;
      if reply.rec.status == Done && r.status != Done {
        var l1 := L.SetSlot(l, reply.rec);
        SetStatus(c, l, m.inst, Done);
        StatusKeepsTrue(c, given, l, l1);
        DoneKeepsCore(c, l, m.inst);
        assert Acceptance(r.inst, r.key) in sends;
        NewChoice(given, l, reply.rec, net + Sends(sends));
        AdvanceAnnounces(c, given, l1, net + Sends(sends));
      } else {
        assert L.SetSlot(l, reply.rec) == l by { SameSlots(l, m.inst); }
      }
    }
  }

  lemma SameSlots(l: L.Leader, inst: nat)
    requires |l.slots| > 0 && L.Slot(l, inst).inst == inst
    ensures L.SetSlot(l, L.Slot(l, inst)) == l
  {
    assert l.slots[inst % |l.slots| := L.Slot(l, inst)] == l.slots;
  }

  lemma MoreChoices(given: seq<Mapping>, l: L.Leader, net: set<Msg>, net': set<Msg>)
    requires ChoicesSent(given, l, net) && net <= net'
    ensures ChoicesSent(given, l, net')
  {
    forall k | 0 <= k < |l.slots|
      ensures DoneSent(l.slots[k], net')
    {
      assert DoneSent(l.slots[k], net);
    }
  }

  lemma NewChoice(given: seq<Mapping>, l: L.Leader, r: MRec, net: set<Msg>)
    requires ChoicesSent(given, l, net) && |l.slots| > 0 && Acceptance(r.inst, r.key) in net
    ensures ChoicesSent(given, L.SetSlot(l, r), net)
  {
    var l' := L.SetSlot(l, r);
    forall k | 0 <= k < |l'.slots|
      ensures DoneSent(l'.slots[k], net)
    {
      assert DoneSent(l.slots[k], net);
    }
  }

  lemma AnswerAnnounces(c: L.Config, s: Sys, s': Sys, m: Msg)
    requires Inv(c, s) && Announced(s) && m in s.net && Sized(s) && LeaderStep(c, s, m) == Some(s')
    ensures Announced(s')
  {
    hide LeaderTrue, MsgTrue, AccsTrue, Conserved, L.HandlePhase1, L.HandlePhase1Range, L.HandlePhase2, Quiet,
      ChoicesSent, MapsSent;
    LeaderIs(c, s);
    LeaderBounds(c, s.leader) by { hide LeaderOk; }
    hide LeaderOk;
    Sizes(c, s);
    match m
    case Phase1(_, _, _, _, _, _, _) =>
      Phase1Quiet(c, s.given, s.leader, m);
      MapsStay(s, s');
      QuietKeeps(s, s');
    case Phase1Range(_, _, _, _) =>
      RangeQuiet(c, s.leader, m) by { RangeBound(c, s, m); }
      MapsStay(s, s');
      QuietKeeps(s, s');
    case Phase2(_, _, _, _) =>
      Phase2Announces(c, s.given, s.leader, m, s.net);
      MapsStay(s, s');
    case CmdMap(_, _, _) =>
    case Acceptance(_, _) =>
  }

  lemma RangeBound(c: L.Config, s: Sys, m: Msg)
    requires Inv(c, s) && m in s.net && m.Phase1Range?
    ensures m.to <= s.leader.p1HighestOpen
  {
    hide LeaderTrue, AccsTrue, Conserved;
    assert MsgTrue(c, s.given, s.leader.p1HighestOpen, m);
  }

  // ----- every run -----

  lemma StepAnnounces(c: L.Config, s: Sys, s': Sys, step: Step)
    requires Inv(c, s) && Announced(s) && Next(c, s, s', step)
    ensures Announced(s')
  {
    match step
    case Submit(bytes) =>
      hide Inv, MapsSent, ChoicesSent;
      assert Quiet(s.leader, s'.leader);
      Sizes(c, s);
      QuietKeeps(s, s');
    case OpenPhase1 => OpenPhase1Announces(c, s, s');
    case OpenPhase2 => OpenPhase2Announces(c, s, s');
    case Timeouts(expired) => TimeoutsAnnounce(c, s, s', expired);
    case ToLeader(m) => AnswerAnnounces(c, s, s', m);
    case AskMapping(inst, repeat) => AskAnnounces(c, s, s', inst, step);
    case AskChosen(inst) => AskAnnounces(c, s, s', inst, step);
    case ToAcceptor(a, m) => AcceptorAnnounces(c, s, s', a, m);
  }

  lemma AskAnnounces(c: L.Config, s: Sys, s': Sys, inst: nat, step: Step)
    requires Inv(c, s) && Announced(s) && Next(c, s, s', step)
    requires step == AskChosen(inst) || (step.AskMapping? && step.inst == inst)
    ensures Announced(s')
  {
    hide Inv, Announced;
    Sizes(c, s);
    AskedRecord(c, s, inst);
    MapsStay(s, s');
    SelfQuiet(s.leader);
    QuietKeeps(s, s');
  }

  lemma AcceptorAnnounces(c: L.Config, s: Sys, s': Sys, a: nat, m: Msg)
    requires Inv(c, s) && Announced(s) && Next(c, s, s', ToAcceptor(a, m))
    ensures Announced(s')
  {
    hide Inv, Announced, A.Handle;
    Sizes(c, s);
    MapsStay(s, s');
    SelfQuiet(s.leader);
    QuietKeeps(s, s');
  }

  /** In every state of every run: the mapping of every assigned instance and the choice of every closed one were
      broadcast. */
  lemma {:induction false} AnnouncedInRuns(c: L.Config, n: nat, run: seq<Sys>, steps: seq<Step>, j: nat)
    requires IsRun(c, n, run, steps) && j < |run|
    ensures Announced(run[j])
  {
    hide Inv, Next, Announced;
    if j == 0 {
      NothingYet(c, n);
    } else {
      AnnouncedInRuns(c, n, run, steps, j - 1);
      RunKeeps(c, n, run, steps, j - 1);
      StepAnnounces(c, run[j - 1], run[j], steps[j - 1]);
    }
  }

  lemma NothingYet(c: L.Config, n: nat)
    ensures Announced(Init(c, n))
  {
  }

  // ----- learners catch up -----

  ghost predicate Sent(s: Sys, ms: seq<Msg>) {
    forall m :: m in ms ==> m in s.net
  }

  lemma {:induction false} QueueSize(t: Truth, size: nat, ms: seq<Msg>)
    requires size > 0 && forall m :: m in ms ==> TrueMsg(t, m)
    ensures HandleAll(InitQueue(size), ms).Some? && HandleAll(InitQueue(size), ms).value.size == size
  {
    if ms != [] {
      hide HandleMsg, TrueMsg, TrueQueue, QueueInv;
      var before := ms[..|ms| - 1];
      LogIsChosen(t, size, before);
      QueueSize(t, size, before);
      DeliverySpec.HandleTrue(t, HandleAll(InitQueue(size), before).value, ms[|ms| - 1]);
    }
  }

  lemma SentIsTrue(c: L.Config, s: Sys, ms: seq<Msg>)
    requires Inv(c, s) && Sent(s, ms)
    ensures forall m :: m in ms ==> TrueMsg(TruthOf(s.given), m)
  {
    hide LeaderTrue, AccsTrue, Conserved, FirstBallot;
    forall m | m in ms
      ensures TrueMsg(TruthOf(s.given), m)
    {
      assert MsgTrue(c, s.given, s.leader.p1HighestOpen, m);
    }
  }

  lemma HandleLast(q: Queue, ms: seq<Msg>, m: Msg)
    requires HandleAll(q, ms).Some?
    ensures HandleAll(q, ms + [m]) == HandleMsg(HandleAll(q, ms).value, m)
  {
    hide HandleMsg;
    var all := ms + [m];
    assert all[..|all| - 1] == ms && all[|all| - 1] == m;
  }

  lemma HandleTwo(q: Queue, ms: seq<Msg>, m1: Msg, m2: Msg)
    requires HandleAll(q, ms).Some? && HandleMsg(HandleAll(q, ms).value, m1).Some?
    ensures HandleAll(q, ms + [m1, m2]) == HandleMsg(HandleMsg(HandleAll(q, ms).value, m1).value, m2)
  {
    hide HandleMsg, HandleAll;
    HandleLast(q, ms, m1);
    HandleLast(q, ms + [m1], m2);
    assert ms + [m1, m2] == ms + [m1] + [m2];
  }

  /** The mapping and the choice of the instance after the first j are among the messages. */
  predicate Has(given: seq<Mapping>, net: set<Msg>, j: nat) {
    j < |given| && MapOf(given, j) in net && ChoiceOf(given, j) in net
  }

  /** The mapping and the choice of the next instance, as they were broadcast, get it delivered. */
  lemma DeliversNext(c: L.Config, s: Sys, size: nat, ms: seq<Msg>)
    requires Inv(c, s) && Sent(s, ms) && size > 1
    requires HandleAll(InitQueue(size), ms).Some?
    requires Has(s.given, s.net, HandleAll(InitQueue(size), ms).value.delivered)
    ensures var d := HandleAll(InitQueue(size), ms).value.delivered;
            var ms' := ms + [MapOf(s.given, d), ChoiceOf(s.given, d)];
            Sent(s, ms') && HandleAll(InitQueue(size), ms').Some? && HandleAll(InitQueue(size), ms').value.delivered > d
  {
    hide Inv, HandleAll, TrueQueue, QueueInv, TrueMsg;
    var t, q := TruthOf(s.given), HandleAll(InitQueue(size), ms).value;
    var d := q.delivered;
    SentIsTrue(c, s, ms);
    LogIsChosen(t, size, ms);
    QueueSize(t, size, ms);
    MapThenAcceptance(t, q);
    HandleTwo(InitQueue(size), ms, MapOf(s.given, d), ChoiceOf(s.given, d));
  }

  function Delivered(size: nat, ms: seq<Msg>): nat {
    match HandleAll(InitQueue(size), ms)
    case None => 0
    case Some(q) => q.delivered
  }

  /** A learner delivers everything closed by what is among the given messages, as soon as those have the mapping and
      the choice of every instance it misses. */
  lemma {:induction false} CatchesUp(c: L.Config, s: Sys, size: nat, ms: seq<Msg>, from: set<Msg>) returns (more: seq<Msg>)
    requires Inv(c, s) && Sent(s, ms) && size > 1 && from <= s.net
    requires forall j :: Delivered(size, ms) <= j < s.leader.highestClosed ==> Has(s.given, from, j)
    ensures (forall m :: m in more ==> m in from) && HandleAll(InitQueue(size), ms + more).Some?
    ensures s.leader.highestClosed <= |HandleAll(InitQueue(size), ms + more).value.log|
    ensures HandleAll(InitQueue(size), ms + more).value.log <= BytesGiven(s.given)
    decreases s.leader.highestClosed - Delivered(size, ms)
  {
    hide Inv, HandleAll, QueueInv, TrueMsg;
    SentIsTrue(c, s, ms);
    LogIsChosen(TruthOf(s.given), size, ms);
    LearnerOfState(c, s, size, ms);
    Sizes(c, s);
    var q := HandleAll(InitQueue(size), ms).value;
    if q.delivered >= s.leader.highestClosed {
      more := [];
      assert ms + more == ms;
    } else {
      assert Has(s.given, from, q.delivered);
      DeliversNext(c, s, size, ms);
      var two := [MapOf(s.given, q.delivered), ChoiceOf(s.given, q.delivered)];
      var rest := CatchesUp(c, s, size, ms + two, from);
      more := two + rest;
      assert ms + more == ms + two + rest;
    }
  }

  /** In every reachable state every learner, whatever it was handed so far, can be handed messages that were broadcast
      so that it delivers everything that is closed. */
  lemma CanCatchUp(c: L.Config, s: Sys, size: nat, ms: seq<Msg>) returns (more: seq<Msg>)
    requires Inv(c, s) && Announced(s) && Sent(s, ms) && size > 1
    ensures Sent(s, more) && HandleAll(InitQueue(size), ms + more).Some?
    ensures s.leader.highestClosed <= |HandleAll(InitQueue(size), ms + more).value.log|
    ensures HandleAll(InitQueue(size), ms + more).value.log <= BytesGiven(s.given)
  {
    hide Inv, HandleAll;
    Sizes(c, s);
    more := CatchesUp(c, s, size, ms, s.net);
  }

  /** A learner that asks again for the mapping of an assigned instance is answered exactly when the leader still has the
      record; when a newer instance took its slot, the leader aborts. */
  lemma AskedAgain(c: L.Config, s: Sys, inst: nat)
    requires Inv(c, s) && Askable(s, inst)
    ensures Sized(s) && (Do(c, s, AskMapping(inst, true)).Some? <==> L.Slot(s.leader, inst).inst == inst)
    ensures Do(c, s, AskMapping(inst, true)).Some? ==>
      inst <= |s.given| && MapOf(s.given, inst - 1) in Do(c, s, AskMapping(inst, true)).value.net
  {
    Sizes(c, s);
    AskedRecord(c, s, inst);
    hide Inv, MsgTrue;
    if L.Get(s.leader, inst).Some? {
      var sends := [MappingMsg(L.Slot(s.leader, inst))];
      assert sends[0] in sends;
      assert MsgTrue(c, s.given, s.leader.p1HighestOpen, sends[0]);
      AskedIsMap(c, s, inst);
    }
  }

  lemma AskedIsMap(c: L.Config, s: Sys, inst: nat)
    requires |s.leader.slots| > 0 && MsgTrue(c, s.given, s.leader.p1HighestOpen, MappingMsg(L.Slot(s.leader, inst)))
    requires L.Slot(s.leader, inst).inst == inst
    ensures 0 < inst <= |s.given| && MappingMsg(L.Slot(s.leader, inst)) == MapOf(s.given, inst - 1)
  {
  }
}
