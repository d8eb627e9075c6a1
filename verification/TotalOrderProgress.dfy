/** The single-leader system on its ring: whatever happened before and whatever was lost, the leader can still
    assign and close every submitted value, when it opens instances at all and the ring has a quorum. */
module TotalOrderProgress {
  import opened RingTypes
  import opened Ballots
  import opened LeaderRecord
  import opened LeaderInv
  import opened LeaderTruth
  import opened AcceptorTruth
  import opened TotalOrder
  import opened TotalOrderRuns
  import opened RingRoute
  import L = LeaderSpec
  import A = AcceptorSpec
  import F = AcceptorFacts

  // ----- continuations -----

  ghost predicate Leads(c: L.Config, r: Net, r': Net) {
    exists acts :: DoAll(c, r, acts) == Some(r')
  }

  lemma LeadsNowhere(c: L.Config, r: Net)
    ensures Leads(c, r, r)
  {
    assert DoAll(c, r, []) == Some(r);
  }

  lemma LeadsOn(c: L.Config, r: Net, r1: Net, r2: Net)
    requires Leads(c, r, r1) && Leads(c, r1, r2)
    ensures Leads(c, r, r2)
  {
    hide DoAll;
    var acts1 :| DoAll(c, r, acts1) == Some(r1);
    var acts2 :| DoAll(c, r1, acts2) == Some(r2);
    DoAllJoin(c, r, acts1, acts2);
  }

  lemma LeadsByAct(c: L.Config, r: Net, r': Net, act: Act)
    requires Good(c, r) && Sized(r.sys) && DoAct(c, r, act) == Some(r')
    ensures Leads(c, r, r') && Good(c, r') && Sized(r'.sys) && Grown(r.sys, r'.sys) && r.wire <= r'.wire
  {
    hide DoAct, Good, Grown, Sized, DoAll;
    DoOne(c, r, act);
    var run, steps := ActIsSteps(c, r, r', act);
  }

  lemma LeadsGrows(c: L.Config, r: Net, r': Net)
    requires Good(c, r) && Leads(c, r, r')
    ensures Good(c, r') && Grown(r.sys, r'.sys) && r.wire <= r'.wire
  {
    hide DoAll, Good;
    var acts :| DoAll(c, r, acts) == Some(r');
    DoAllKeeps(c, r, acts);
  }

  /** Only acceptors and messages changed. */
  predicate SameLeader(s: Sys, s': Sys) {
    s'.leader == s.leader && s'.given == s.given && s'.submitted == s.submitted && |s'.accs| == |s.accs|
  }

  /** Nothing was submitted and nothing was lost; the closed bound may have moved. */
  predicate SameValues(s: Sys, s': Sys) {
    s'.submitted == s.submitted && |s'.accs| == |s.accs| && s.leader.highestClosed <= s'.leader.highestClosed
  }

  lemma GoodIs(c: L.Config, r: Net)
    requires Good(c, r)
    ensures Inv(c, r.sys) && Sized(r.sys)
    ensures |r.sys.given| == r.sys.leader.highestOpen <= r.sys.leader.p1HighestOpen
    ensures r.sys.leader.highestClosed <= r.sys.leader.highestOpen
    ensures |r.sys.submitted| == |r.sys.given| + |r.sys.leader.queue|
    ensures LeaderTrue(c, r.sys.given, r.sys.leader) && LeaderOk(c, r.sys.leader)
  {
    hide NetTrue, AccsTrue, LeaderOk, SlotsTrue;
    Sizes(c, r.sys);
  }

  lemma WireIsTrue(c: L.Config, r: Net, f: Flight)
    requires Good(c, r) && f in r.wire
    ensures MsgTrue(c, r.sys.given, r.sys.leader.p1HighestOpen, f.msg)
  {
  }

  /** The next acceptor handles a ring message. */
  lemma PassOn(c: L.Config, r: Net, f: Flight, out: seq<Msg>) returns (r': Net)
    requires Good(c, r) && Sized(r.sys) && f in r.wire && RingMsg(f.msg) && f.hop < |r.sys.accs|
    requires A.Handle(r.sys.accs[f.hop], f.msg).Some? && A.Handle(r.sys.accs[f.hop], f.msg).value.1 == out
    ensures Leads(c, r, r') && Good(c, r') && SameLeader(r.sys, r'.sys) && r.wire <= r'.wire
    ensures forall m :: m in out ==> Flight(m, f.hop + 1) in r'.wire
  {
    hide Good, A.Handle;
    r' := DoAct(c, r, Pass(f)).value;
    LeadsByAct(c, r, r', Pass(f));
  }

  // ----- the votes of one round trip -----

  lemma LearnThenVote(c: L.Config, given: seq<Mapping>, opened1: nat, a: A.Acceptor, m1: Msg, m2: Msg)
    requires AccTrue(c, given, opened1, a) && |given| <= opened1
    requires m1.CmdMap? && m2.Phase2? && m1.inst == m2.inst && m1.key == m2.key != NULL_KEY
    requires MsgTrue(c, given, opened1, m1) && MsgTrue(c, given, opened1, m2) && FirstBallot(c) > 0
    requires |a.slots| > 0 && !A.Gone(a, m1.inst)
    ensures A.HandleCmdMap(a, m1).Some?
    ensures var a1 := A.HandleCmdMap(a, m1).value;
            && |a1.slots| > 0 && A.HandlePhase2(a1, m2).Some?
            && A.HandlePhase2(a1, m2).value.1 == [Phase2(m2.inst, m2.ballot, m2.accepts + 1, m2.key)]
  {
    hide FirstBallot, F.AcceptorInv, AccTrue;
    CmdMapTrue(c, given, opened1, a, m1);
    RecordOfTrue(c, given, opened1, a, m1.inst);
    var a1 := A.HandleCmdMap(a, m1).value;
    AccSize(c, given, opened1, a1);
    var r := A.MapInto(A.RecordOf(a, m1.inst), m1.key, m1.bytes).value;
    assert A.RecordOf(a1, m1.inst) == r && !A.Gone(a1, m1.inst);
    Phase2True(c, given, opened1, a1, m2);
    RecordOfTrue(c, given, opened1, a1, m1.inst);
  }

  /** The mapping and the vote of the first unfinished instance, after k acceptors. */
  function HeadMap(s: Sys): Msg
    requires s.leader.highestClosed < |s.given|
  {
    var given := s.given[s.leader.highestClosed];
    CmdMap(s.leader.highestClosed + 1, given.key, given.bytes)
  }

  function HeadVote(c: L.Config, s: Sys, k: nat): Msg
    requires s.leader.highestClosed < |s.given|
  {
    Phase2(s.leader.highestClosed + 1, FirstBallot(c), k, s.given[s.leader.highestClosed].key)
  }

  ghost predicate Voting(c: L.Config, r: Net, k: nat) {
    && Good(c, r) && r.sys.leader.highestClosed < |r.sys.given|
    && Flight(HeadMap(r.sys), 0) in r.wire && Flight(HeadVote(c, r.sys, k), k) in r.wire
  }

  lemma AcceptorCanVote(c: L.Config, r: Net, k: nat)
    requires Voting(c, r, k) && k < |r.sys.accs|
    ensures Sized(r.sys) && A.HandleCmdMap(r.sys.accs[k], HeadMap(r.sys)).Some?
    ensures var a1 := A.HandleCmdMap(r.sys.accs[k], HeadMap(r.sys)).value;
            && |a1.slots| > 0 && A.HandlePhase2(a1, HeadVote(c, r.sys, k)).Some?
            && A.HandlePhase2(a1, HeadVote(c, r.sys, k)).value.1 == [HeadVote(c, r.sys, k + 1)]
  {
    hide Good, Inv, LeaderTrue, LeaderOk, FirstBallot, AccTrue, A.Gone, A.HandleCmdMap, A.HandlePhase2;
    var s := r.sys;
    GoodIs(c, r);
    Sizes(c, s);
    HistoryKeys(c, s);
    AccIsTrue(c, s, k);
    WireIsTrue(c, r, Flight(HeadMap(s), 0));
    WireIsTrue(c, r, Flight(HeadVote(c, s, k), k));
    UnfinishedNotGone(c, s.given, s.leader.p1HighestOpen, s.accs[k], s.leader.highestClosed, s.leader.highestClosed + 1);
    LearnThenVote(c, s.given, s.leader.p1HighestOpen, s.accs[k], HeadMap(s), HeadVote(c, s, k));
  }

  lemma LearnMap(c: L.Config, r: Net, k: nat) returns (r': Net)
    requires Voting(c, r, k) && k < |r.sys.accs|
    ensures Leads(c, r, r') && Voting(c, r', k) && SameLeader(r.sys, r'.sys) && Sized(r.sys) && r.wire <= r'.wire
    ensures A.HandleCmdMap(r.sys.accs[k], HeadMap(r.sys)) == Some(r'.sys.accs[k])
  {
    hide Good, A.HandleCmdMap, FirstBallot;
    AcceptorCanVote(c, r, k);
    var act := Learn(k, Flight(HeadMap(r.sys), 0));
    r' := DoAct(c, r, act).value;
    LeadsByAct(c, r, r', act);
  }

  lemma VoteOnce(c: L.Config, r: Net, k: nat) returns (r': Net)
    requires Voting(c, r, k) && k < |r.sys.accs|
    ensures Leads(c, r, r') && Voting(c, r', k + 1) && SameLeader(r.sys, r'.sys)
  {
    hide Good, A.HandleCmdMap, A.HandlePhase2, FirstBallot, Leads;
    AcceptorCanVote(c, r, k);
    var r1 := LearnMap(c, r, k);
    GoodIs(c, r1) by { hide LeaderTrue, LeaderOk; }
    var f := Flight(HeadVote(c, r.sys, k), k);
    var out := HeadVote(c, r.sys, k + 1);
    r' := PassOn(c, r1, f, [out]);
    assert out in [out];
    LeadsOn(c, r, r1, r');
  }

  /** The vote goes round: every acceptor of the ring learns the mapping and accepts. */
  lemma {:induction false} VoteTrip(c: L.Config, r: Net, k: nat) returns (r': Net)
    requires Voting(c, r, k) && k <= |r.sys.accs|
    ensures Leads(c, r, r') && Voting(c, r', |r.sys.accs|) && SameLeader(r.sys, r'.sys)
    decreases |r.sys.accs| - k
  {
    hide Voting, Leads;
    if k == |r.sys.accs| {
      LeadsNowhere(c, r);
      r' := r;
    } else {
      var r1 := VoteOnce(c, r, k);
      r' := VoteTrip(c, r1, k + 1);
      LeadsOn(c, r, r1, r');
    }
  }

  // ----- the leader's part in closing -----

  /** What a timeout of an instance sends. */
  lemma {:induction false} ExpiredSends(c: L.Config, l: L.Leader, i: nat, last: nat, inst: nat)
    requires LeaderOk(c, l) && l.highestClosed < i <= inst <= last <= l.p1HighestOpen
    ensures |l.slots| > 0 && L.CheckExpired(l, i, last, {inst}).Some?
    ensures forall m :: m in L.Repeats(L.Slot(l, inst), true) ==> m in L.CheckExpired(l, i, last, {inst}).value.1
    decreases last - i
  {
    hide LeaderOk, L.Get, L.Slot, L.Repeats;
    LeaderBounds(c, l);
    GetOk(c, l, i);
    CheckExpiredKeeps(c, l, i + 1, last, {inst});
    if i < inst {
      ExpiredSends(c, l, i + 1, last, inst);
    }
  }

  /** The record of the first unfinished instance is what the history says. */
  lemma HeadRecord(c: L.Config, r: Net)
    requires Good(c, r) && r.sys.leader.highestClosed < |r.sys.given|
    ensures Sized(r.sys)
    ensures var s, rec := r.sys, L.Slot(r.sys.leader, r.sys.leader.highestClosed + 1);
            && rec.inst == s.leader.highestClosed + 1 && rec.status == P2Pending
            && MappingMsg(rec) == HeadMap(s) && Phase2Msg(rec) == HeadVote(c, s, 0)
    ensures L.Get(r.sys.leader, r.sys.leader.highestClosed + 1) == Some(r.sys.leader)
  {
    hide Good, Inv, FirstBallot;
    GoodIs(c, r);
    var i := r.sys.leader.highestClosed + 1;
    GetWithin(c, r.sys.leader, i);
    assert RecTrue(c, r.sys.given, r.sys.leader.p1HighestOpen, L.Slot(r.sys.leader, i));
  }

  /** What the periodic check keeps, and what it sends for an instance that timed out. */
  lemma Checked(c: L.Config, r: Net, expired: set<nat>) returns (r1: Net, r': Net)
    requires Good(c, r)
    ensures Leads(c, r, r') && Good(c, r') && SameValues(r.sys, r'.sys) && r.sys.given <= r'.sys.given
    ensures r'.sys.leader.highestClosed == r.sys.leader.highestClosed
    ensures Good(c, r1) && r1.sys.given == r.sys.given && r1.sys.leader.highestClosed == r.sys.leader.highestClosed
    ensures r1.sys.leader.queue == r.sys.leader.queue && r1.sys.leader.highestOpen == r.sys.leader.highestOpen
    ensures Sized(r.sys) && L.OpenPhase1(c, r.sys.leader).Some? && r1.sys.leader == L.OpenPhase1(c, r.sys.leader).value.0
    ensures Sized(r1.sys) && L.OpenPhase2(c, r1.sys.leader, 0).Some?
    ensures r'.sys.leader == L.OpenPhase2(c, r1.sys.leader, 0).value.0
    ensures r'.sys.given == r.sys.given + L.OpenPhase2(c, r1.sys.leader, 0).value.2
    ensures var l := r1.sys.leader;
            forall i, m :: l.highestClosed < i <= l.p1HighestOpen && expired == {i} && m in L.Repeats(L.Slot(l, i), true) ==>
              Flight(m, 0) in r'.wire
  {
    hide Good, LeaderTrue, LeaderOk, L.Periodic, L.OpenPhase1, L.OpenPhase2, L.CheckExpired, L.Highest,
      L.Repeats, L.Slot, Leads;
    GoodIs(c, r);
    var s1, s2, s3 := CheckParts(c, r.sys, expired);
    r1 := Net(s1, {});
    GoodEmpty(c, s1);
    GoodIs(c, r1);
    r' := DoAct(c, r, Check(expired)).value;
    assert r'.sys == s3;
    LeadsByAct(c, r, r', Check(expired));
    PeriodicKeeps(c, r.sys.leader, expired);
    OpenPhase1Keeps(c, r.sys.leader);
    var l := s1.leader;
    forall i, m | l.highestClosed < i <= l.p1HighestOpen && expired == {i} && m in L.Repeats(L.Slot(l, i), true)
      ensures Flight(m, 0) in r'.wire
    {
      HighestIs(c, s1);
      ExpiredSends(c, l, l.highestClosed + 1, L.Highest(l), i);
    }
  }

  lemma GoodEmpty(c: L.Config, s: Sys)
    requires Inv(c, s)
    ensures Good(c, Net(s, {}))
  {
  }

  /** The first unfinished instance times out: its mapping and its vote start a new round. */
  lemma AskVotes(c: L.Config, r: Net) returns (r': Net)
    requires Good(c, r) && r.sys.leader.highestClosed < |r.sys.given|
    ensures Leads(c, r, r') && Voting(c, r', 0) && SameValues(r.sys, r'.sys)
    ensures r'.sys.leader.highestClosed == r.sys.leader.highestClosed
  {
    hide Good, LeaderTrue, LeaderOk, L.OpenPhase1, L.OpenPhase2, L.Slot, FirstBallot, Leads;
    var i := r.sys.leader.highestClosed + 1;
    var r1;
    r1, r' := Checked(c, r, {i});
    HeadRecord(c, r1);
    GoodIs(c, r1);
    var rec := L.Slot(r1.sys.leader, i);
    var sends := L.Repeats(rec, true);
    assert sends[0] in sends && sends[1] in sends;
  }

  lemma ClosesHead(c: L.Config, l: L.Leader, m: Msg)
    requires LeaderOk(c, l) && l.highestClosed < l.highestOpen && |l.slots| > 0 && m.Phase2? && m.accepts >= c.quorum
    requires L.Get(l, l.highestClosed + 1) == Some(l) && m.inst == l.highestClosed + 1
    requires var r := L.Slot(l, m.inst); r.inst == m.inst && r.status == P2Pending && r.ballot == m.ballot && r.key == m.key
    ensures L.HandlePhase2(c, l, m).Some? && L.HandlePhase2(c, l, m).value.0.highestClosed > l.highestClosed
  {
    hide LeaderOk, L.Get, L.Slot, L.AdvanceClosed, Core;
    DoneKeepsCore(c, l, m.inst);
    var r := L.Slot(l, m.inst).(status := Done);
    SlotAfter(l, r, m.inst);
    Advances(c, L.SetSlot(l, r));
  }

  lemma Advances(c: L.Config, l: L.Leader)
    requires Core(c, l) && l.highestClosed < l.highestOpen && |l.slots| > 0
    requires L.Slot(l, l.highestClosed + 1).inst == l.highestClosed + 1 && L.Slot(l, l.highestClosed + 1).status == Done
    ensures L.AdvanceClosed(l).Some? && L.AdvanceClosed(l).value.highestClosed > l.highestClosed
  {
    hide Core, L.Get, L.Slot, L.AdvanceClosed;
    StepClosed(c, l);
    AdvanceOnce(l);
    AdvanceKeeps(c, L.Get(l.(highestClosed := l.highestClosed + 1), l.highestClosed + 2).value);
  }

  /** The vote that every acceptor of the ring accepted is back at the leader. */
  lemma TakeVotes(c: L.Config, r: Net) returns (r': Net)
    requires Voting(c, r, |r.sys.accs|) && c.quorum <= |r.sys.accs|
    ensures Leads(c, r, r') && Good(c, r') && SameValues(r.sys, r'.sys)
    ensures r'.sys.leader.highestClosed > r.sys.leader.highestClosed
    ensures r'.sys.leader.highestOpen == r.sys.leader.highestOpen
  {
    hide Good, LeaderTrue, LeaderOk, L.HandlePhase2, L.Slot, L.Get, FirstBallot, Leads;
    var f := Flight(HeadVote(c, r.sys, |r.sys.accs|), |r.sys.accs|);
    GoodIs(c, r);
    HeadRecord(c, r);
    ClosesHead(c, r.sys.leader, f.msg);
    HandlePhase2Keeps(c, r.sys.leader, f.msg);
    r' := DoAct(c, r, Return(f)).value;
    LeadsByAct(c, r, r', Return(f));
  }

  lemma OpenIsNear(c: L.Config, r: Net)
    requires Voting(c, r, |r.sys.accs|)
    ensures r.sys.leader.highestOpen <= r.sys.leader.highestClosed + c.maxActive
  {
    hide Good, LeaderTrue, LeaderOk, FirstBallot;
    GoodIs(c, r);
    LeaderBounds(c, r.sys.leader);
  }

  /** From every state with an assigned instance that is not closed, some continuation on the ring closes the first one:
      a timeout, one trip round all acceptors, and the answer. */
  lemma CanCloseHead(c: L.Config, r: Net) returns (r': Net)
    requires Good(c, r) && r.sys.leader.highestClosed < r.sys.leader.highestOpen && c.quorum <= |r.sys.accs|
    ensures Leads(c, r, r') && Good(c, r') && SameValues(r.sys, r'.sys)
    ensures r.sys.leader.highestClosed < r'.sys.leader.highestClosed <= r.sys.leader.highestClosed + c.maxActive
  {
    hide Good, Voting, LeaderTrue, LeaderOk, Leads;
    GoodIs(c, r);
    var r1 := AskVotes(c, r);
    var r2 := VoteTrip(c, r1, 0);
    r' := TakeVotes(c, r2);
    OpenIsNear(c, r2);
    GoodIs(c, r');
    LeadsOn(c, r, r1, r2);
    LeadsOn(c, r, r2, r');
  }

  // ----- the promises of one round trip -----

  /** A phase 1 request for an instance without a command is granted, and nothing is reported. */
  lemma GrantsFresh(c: L.Config, given: seq<Mapping>, opened1: nat, a: A.Acceptor, i: nat, k: nat)
    requires AccTrue(c, given, opened1, a) && |given| < i <= opened1 && |a.slots| > 0 && !A.Gone(a, i)
    ensures var m := NewPhase1(i, FirstBallot(c), k);
            A.Handle(a, m).Some? && A.Handle(a, m).value.1 == [NewPhase1(i, FirstBallot(c), k + 1)]
  {
    hide FirstBallot, AccTrue;
    RecordOfTrue(c, given, opened1, a, i);
  }

  /** The next instance waits for phase 1, and k acceptors have granted it. */
  ghost predicate Promising(c: L.Config, r: Net, k: nat) {
    && Good(c, r) && Sized(r.sys) && r.sys.leader.highestOpen < r.sys.leader.p1HighestOpen
    && L.Slot(r.sys.leader, r.sys.leader.highestOpen + 1).status == P1Pending
    && Flight(NewPhase1(r.sys.leader.highestOpen + 1, FirstBallot(c), k), k) in r.wire
  }

  lemma PromiseOnce(c: L.Config, r: Net, k: nat) returns (r': Net)
    requires Promising(c, r, k) && k < |r.sys.accs|
    ensures Leads(c, r, r') && Promising(c, r', k + 1) && SameLeader(r.sys, r'.sys)
  {
    hide Good, Inv, LeaderTrue, LeaderOk, FirstBallot, AccTrue, A.Gone, A.Handle, L.Slot, Leads;
    var s, i := r.sys, r.sys.leader.highestOpen + 1;
    GoodIs(c, r);
    Sizes(c, s);
    AccIsTrue(c, s, k);
    UnfinishedNotGone(c, s.given, s.leader.p1HighestOpen, s.accs[k], s.leader.highestClosed, i);
    GrantsFresh(c, s.given, s.leader.p1HighestOpen, s.accs[k], i, k);
    var out := NewPhase1(i, FirstBallot(c), k + 1);
    r' := PassOn(c, r, Flight(NewPhase1(i, FirstBallot(c), k), k), [out]);
    assert out in [out];
    GoodIs(c, r');
  }

  lemma {:induction false} PromiseTrip(c: L.Config, r: Net, k: nat) returns (r': Net)
    requires Promising(c, r, k) && k <= |r.sys.accs|
    ensures Leads(c, r, r') && Promising(c, r', |r.sys.accs|) && SameLeader(r.sys, r'.sys)
    decreases |r.sys.accs| - k
  {
    hide Promising, Leads;
    if k == |r.sys.accs| {
      LeadsNowhere(c, r);
      r' := r;
    } else {
      var r1 := PromiseOnce(c, r, k);
      r' := PromiseTrip(c, r1, k + 1);
      LeadsOn(c, r, r1, r');
    }
  }

  /** The granted request ends phase 1 of the next instance. */
  lemma TakePromises(c: L.Config, r: Net) returns (r': Net)
    requires Promising(c, r, |r.sys.accs|) && c.quorum <= |r.sys.accs|
    ensures Leads(c, r, r') && Good(c, r') && Sized(r'.sys)
    ensures r'.sys.leader == r.sys.leader.(slots := r'.sys.leader.slots) && SameValues(r.sys, r'.sys)
    ensures r'.sys.leader.highestOpen < r'.sys.leader.p1HighestOpen
    ensures L.Slot(r'.sys.leader, r'.sys.leader.highestOpen + 1).status == P1Done
  {
    hide Good, Inv, LeaderOk, LeaderTrue, FirstBallot, Leads, L.HandlePhase1;
    var l, i := r.sys.leader, r.sys.leader.highestOpen + 1;
    var f := Flight(NewPhase1(i, FirstBallot(c), |r.sys.accs|), |r.sys.accs|);
    GoodIs(c, r);
    EndsPhase1(c, r.sys.given, l, |r.sys.accs|);
    r' := DoAct(c, r, Return(f)).value;
    LeadsByAct(c, r, r', Return(f));
  }

  lemma EndsPhase1(c: L.Config, given: seq<Mapping>, l: L.Leader, k: nat)
    requires LeaderTrue(c, given, l) && |l.slots| > 0 && l.highestOpen < l.p1HighestOpen && k >= c.quorum
    requires L.Slot(l, l.highestOpen + 1).status == P1Pending
    ensures var i, l' := l.highestOpen + 1, L.SetSlot(l, L.Slot(l, l.highestOpen + 1).(status := P1Done));
            L.HandlePhase1(c, l, NewPhase1(i, FirstBallot(c), k)) == Some((l', [])) && L.Slot(l', i).status == P1Done
  {
    hide LeaderOk, L.Get, FirstBallot, IsMyBallot;
    LeaderBounds(c, l) by { LeaderOfTrue(c, given, l); }
    FirstIsMine(c);
    RecordMessages(c, given, l, l.highestOpen + 1);
    hide L.Slot, L.SetSlot;
    SlotAfter(l, L.Slot(l, l.highestOpen + 1).(status := P1Done), l.highestOpen + 1);
  }

  lemma FirstIsMine(c: L.Config)
    requires L.ValidConfig(c)
    ensures IsMyBallot(FirstBallot(c), c.id, c.incarnation)
  {
    hide MakeFirstBallot, IsMyBallot;
    FirstBallotIsMine(c.id, c.incarnation);
    MineByOwner(FirstBallot(c), c.id, c.incarnation);
  }

  // ----- assigning the next value -----

  /** Phase 1 is open beyond the assigned instances, as soon as the preexecution window has two instances. */
  lemma WindowOpens(c: L.Config, l: L.Leader)
    requires LeaderOk(c, l) && c.preexec >= 2
    ensures |l.slots| > 0 && L.OpenPhase1(c, l).Some?
    ensures L.OpenPhase1(c, l).value.0.highestOpen == l.highestOpen < L.OpenPhase1(c, l).value.0.p1HighestOpen
  {
    hide LeaderOk, L.PrepareRange, MakeFirstBallot;
    LeaderBounds(c, l);
    OpenPhase1Keeps(c, l);
  }

  /** Opening new instances leaves the records of the window alone. */
  lemma WindowKept(c: L.Config, l: L.Leader, i: nat)
    requires LeaderOk(c, l) && l.highestClosed < i <= l.p1HighestOpen && |l.slots| > 0
    ensures L.OpenPhase1(c, l).Some? && |L.OpenPhase1(c, l).value.0.slots| == |l.slots|
    ensures L.Slot(L.OpenPhase1(c, l).value.0, i) == L.Slot(l, i)
  {
    hide LeaderOk, L.PrepareRange, MakeFirstBallot, L.Get;
    OpenPhase1Keeps(c, l);
    L.OpenPhase1Size(c, l);
    var active := L.ActiveCount(l);
    if active < c.preexec / 2 {
      var b, last := MakeFirstBallot(c.id, c.incarnation), l.p1HighestOpen + (c.preexec - active);
      PrepareRecords(l, l.p1HighestOpen + 1, last, b);
      GetOk(c, L.OpenPhase1(c, l).value.0, i) by { LeaderBounds(c, L.OpenPhase1(c, l).value.0); }
    }
  }

  /** With nothing left to close and a value waiting, the next instance is assigned exactly when its phase 1 ended. */
  lemma AssignsOrWaits(c: L.Config, l: L.Leader)
    requires LeaderOk(c, l) && l.highestClosed == l.highestOpen < l.p1HighestOpen && l.queue != [] && |l.slots| > 0
    ensures L.OpenPhase2(c, l, 0).Some?
    ensures var (l', sends, mappings) := L.OpenPhase2(c, l, 0).value;
            && (L.Slot(l, l.highestOpen + 1).status == P1Done ==> |mappings| > 0)
            && (L.Slot(l, l.highestOpen + 1).status != P1Done ==>
                 L.Slot(l, l.highestOpen + 1).status == P1Pending && l' == l && mappings == [])
  {
    hide LeaderOk, L.OpenPhase2, L.Get, Core;
    LeaderBounds(c, l);
    OpenPhase2Keeps(c, l, 0);
    NextRecord(c, l);
    hide L.UnsignedRoom, L.NextSeqNumber, L.SetSlot, L.Slot;
    var o := L.OpenOne(c, l);
    assert o.Opened? <==> L.Slot(l, l.highestOpen + 1).status == P1Done;
    Unfold(c, l);
  }

  lemma NextRecord(c: L.Config, l: L.Leader)
    requires LeaderOk(c, l) && l.highestOpen < l.p1HighestOpen
    ensures |l.slots| > 0 && L.Get(l, l.highestOpen + 1) == Some(l)
    ensures var r := L.Slot(l, l.highestOpen + 1);
            (r.status == P1Pending || r.status == P1Done) && r.ballot != 0 && r.value.None? && r.inst == l.highestOpen + 1
  {
    GetWithin(c, l, l.highestOpen + 1);
  }

  lemma Unfold(c: L.Config, l: L.Leader)
    requires |l.slots| > 0 && L.OpenPhase2(c, l, 0).Some?
    ensures L.OpenOne(c, l).Stop? ==> L.OpenPhase2(c, l, 0) == Some((L.OpenOne(c, l).leader, [], []))
    ensures L.OpenOne(c, l).Opened? ==> |L.OpenPhase2(c, l, 0).value.2| > 0
  {
    hide L.OpenOne;
  }

  /** Nothing is left to close and a value waits: it is assigned, or phase 1 of the next instance is asked for again. */
  lemma AskPromises(c: L.Config, r: Net) returns (r': Net)
    requires Good(c, r) && r.sys.leader.highestClosed == r.sys.leader.highestOpen && r.sys.leader.queue != []
    requires c.preexec >= 2
    ensures Leads(c, r, r') && Good(c, r') && SameValues(r.sys, r'.sys)
    ensures r'.sys.leader.highestClosed == r.sys.leader.highestClosed
    ensures || r'.sys.leader.highestOpen > r.sys.leader.highestOpen
            || (Promising(c, r', 0) && r'.sys.leader.queue == r.sys.leader.queue
                && r'.sys.leader.highestOpen == r.sys.leader.highestOpen)
  {
    hide Good, LeaderTrue, LeaderOk, L.OpenPhase1, L.OpenPhase2, L.Slot, L.Get, FirstBallot, Leads;
    var i := r.sys.leader.highestOpen + 1;
    GoodIs(c, r);
    var r1;
    r1, r' := Checked(c, r, {i});
    GoodIs(c, r');
    GoodIs(c, r1);
    WindowOpens(c, r.sys.leader);
    AssignsOrWaits(c, r1.sys.leader);
    if L.Slot(r1.sys.leader, i).status == P1Pending {
      RecordMessages(c, r1.sys.given, r1.sys.leader, i);
      var sends := L.Repeats(L.Slot(r1.sys.leader, i), true);
      assert sends[0] in sends;
    }
  }

  /** The next value is assigned once phase 1 of its instance ended. */
  lemma AssignNext(c: L.Config, r: Net) returns (r': Net)
    requires Good(c, r) && r.sys.leader.highestClosed == r.sys.leader.highestOpen < r.sys.leader.p1HighestOpen
    requires r.sys.leader.queue != [] && Sized(r.sys)
    requires L.Slot(r.sys.leader, r.sys.leader.highestOpen + 1).status == P1Done
    ensures Leads(c, r, r') && Good(c, r') && SameValues(r.sys, r'.sys)
    ensures r'.sys.leader.highestClosed == r.sys.leader.highestClosed
    ensures r'.sys.leader.highestOpen > r.sys.leader.highestOpen
  {
    hide Good, LeaderTrue, LeaderOk, L.OpenPhase1, L.OpenPhase2, L.Slot, Leads;
    GoodIs(c, r);
    var r1;
    r1, r' := Checked(c, r, {});
    GoodIs(c, r');
    GoodIs(c, r1);
    WindowKept(c, r.sys.leader, r.sys.leader.highestOpen + 1);
    OpenPhase1Keeps(c, r.sys.leader);
    AssignsOrWaits(c, r1.sys.leader);
  }

  /** From every state whose assigned instances are all closed, some continuation on the ring assigns the next waiting
      value. */
  lemma CanAssignNext(c: L.Config, r: Net) returns (r': Net)
    requires Good(c, r) && r.sys.leader.highestClosed == r.sys.leader.highestOpen && r.sys.leader.queue != []
    requires c.preexec >= 2 && c.quorum <= |r.sys.accs|
    ensures Leads(c, r, r') && Good(c, r') && SameValues(r.sys, r'.sys)
    ensures r'.sys.leader.highestClosed == r.sys.leader.highestClosed < r'.sys.leader.highestOpen
  {
    hide Good, Promising, Leads, Sized;
    r' := AskPromises(c, r);
    if r'.sys.leader.highestOpen == r.sys.leader.highestOpen {
      var r1 := r';
      var r2 := PromiseTrip(c, r1, 0);
      var r3 := TakePromises(c, r2);
      r' := AssignNext(c, r3);
      LeadsOn(c, r, r1, r2);
      LeadsOn(c, r, r2, r3);
      LeadsOn(c, r, r3, r');
    }
  }

  // ----- everything submitted -----

  lemma CloseOneMore(c: L.Config, r: Net) returns (r': Net)
    requires Good(c, r) && c.preexec >= 2 && c.quorum <= |r.sys.accs| && r.sys.leader.highestClosed < |r.sys.submitted|
    ensures Leads(c, r, r') && Good(c, r') && SameValues(r.sys, r'.sys)
    ensures r.sys.leader.highestClosed < r'.sys.leader.highestClosed <= r.sys.leader.highestClosed + c.maxActive
  {
    hide Good, Leads, LeaderTrue, LeaderOk;
    GoodIs(c, r);
    var r1 := r;
    if r.sys.leader.highestClosed == r.sys.leader.highestOpen {
      r1 := CanAssignNext(c, r);
    } else {
      LeadsNowhere(c, r);
    }
    r' := CanCloseHead(c, r1);
    LeadsOn(c, r, r1, r');
  }

  /** From every state some continuation on the ring assigns and closes every submitted value. */
  lemma {:induction false} CanCloseAll(c: L.Config, r: Net) returns (r': Net)
    requires Good(c, r) && c.preexec >= 2 && c.quorum <= |r.sys.accs|
    ensures Leads(c, r, r') && Good(c, r') && SameValues(r.sys, r'.sys)
    ensures r'.sys.leader.highestClosed == |r'.sys.submitted| && r'.sys.leader.queue == []
    decreases |r.sys.submitted| - r.sys.leader.highestClosed
  {
    hide Good, Leads, LeaderTrue, LeaderOk;
    GoodIs(c, r);
    if r.sys.leader.highestClosed == |r.sys.submitted| {
      LeadsNowhere(c, r);
      r' := r;
    } else {
      var r1 := CloseOneMore(c, r);
      GoodIs(c, r1);
      r' := CanCloseAll(c, r1);
      LeadsOn(c, r, r1, r');
    }
  }
}
