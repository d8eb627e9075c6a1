/** Late and repeated messages that stop a node of the single-leader system: runs on the ring that get there. */
module LateMessages {
  import opened RingTypes
  import opened Modular
  import opened Ballots
  import opened DequeSpec
  import opened LeaderRecord
  import opened LeaderInv
  import opened LeaderTruth
  import opened AcceptorTruth
  import opened TotalOrder
  import opened TotalOrderRuns
  import opened RingRoute
  import opened TotalOrderProgress
  import opened Announcements
  import opened ProgressLimits
  import L = LeaderSpec
  import A = AcceptorSpec

  // ----- a range answer that comes twice -----

  function FirstRange(c: L.Config, promises: nat): Msg {
    Phase1Range(1, c.preexec, FirstBallot(c), promises)
  }

  /** The first range is on its way and k acceptors granted it; the others have seen nothing. */
  ghost predicate Granting(c: L.Config, r: Net, k: nat) {
    && Good(c, r) && Sized(r.sys)
    && r.sys.leader.p1HighestOpen == c.preexec && r.sys.leader.highestClosed == 0 && r.sys.submitted == []
    && AllPending(r.sys.leader, 1, c.preexec)
    && Flight(FirstRange(c, k), k) in r.wire
    && forall a :: k <= a < |r.sys.accs| ==> r.sys.accs[a].highestSeen == 0
  }

  lemma OpensFirst(c: L.Config)
    requires L.ValidConfig(c) && c.preexec >= 2
    ensures var l := L.InitLeader(c);
            && |l.slots| > 0 && L.OpenPhase1(c, l).Some? && L.Periodic(c, l, {}).Some?
            && L.OpenPhase1(c, l).value.0.p1HighestOpen == c.preexec
            && L.OpenPhase1(c, l).value.1 == [FirstRange(c, 0)]
            && FirstRange(c, 0) in L.Periodic(c, l, {}).value.1
            && L.Periodic(c, l, {}).value.0 == L.OpenPhase1(c, l).value.0
  {
    var l := L.InitLeader(c);
    hide LeaderOk, L.PrepareRange, MakeFirstBallot, L.CheckExpired, L.OpenOne;
    LeaderInv.InitOk(c);
    OpenPhase1Keeps(c, l);
    PeriodicKeeps(c, l, {});
    var l1 := L.OpenPhase1(c, l).value.0;
    LeaderBounds(c, l1);
    CheckExpiredKeeps(c, l1, l1.highestClosed + 1, L.Highest(l1), {});
    OpenOneKeeps(c, l1);
    assert FirstRange(c, 0) in L.OpenPhase1(c, l).value.1;
  }

  lemma OpenedArePending(c: L.Config, l: L.Leader)
    requires LeaderOk(c, l) && |l.slots| > 0 && L.OpenPhase1(c, L.InitLeader(c)).Some?
    requires |L.InitLeader(c).slots| > 0 && l == L.OpenPhase1(c, L.InitLeader(c)).value.0 && l.highestClosed == 0
    ensures AllPending(l, 1, l.p1HighestOpen)
  {
    hide LeaderOk, L.OpenPhase1;
    OpenPhase1Pends(c, L.InitLeader(c));
    forall j | 1 <= j <= l.p1HighestOpen
      ensures L.Slot(l, j).status == P1Pending
    {
      GetOk(c, l, j);
    }
  }

  lemma StartsGranting(c: L.Config, n: nat) returns (r: Net)
    requires L.ValidConfig(c) && c.preexec >= 2
    ensures Leads(c, Net(Init(c, n), {}), r) && Granting(c, r, 0) && |r.sys.accs| == n
  {
    hide Good, L.OpenPhase1, L.Periodic, LeaderOk, LeaderTrue, FirstBallot, Leads, L.ValidConfig;
    InitSized(c, n);
    InitStuck(c, n);
    OpensFirst(c);
    var start := Net(Init(c, n), {});
    r := DoAct(c, start, Check({})).value;
    LeadsByAct(c, start, r, Check({}));
    GoodIs(c, r);
    LeaderInv.InitOk(c);
    OpenPhase1Keeps(c, L.InitLeader(c));
    OpenedArePending(c, r.sys.leader);
  }

  lemma GrantsFirst(c: L.Config, r: Net, k: nat)
    requires Granting(c, r, k) && k < |r.sys.accs|
    ensures A.Handle(r.sys.accs[k], FirstRange(c, k)).Some?
    ensures A.Handle(r.sys.accs[k], FirstRange(c, k)).value.1 == [FirstRange(c, k + 1)]
  {
    hide Good, Inv, LeaderTrue, LeaderOk, AccTrue, FirstBallot, A.Gone, A.GrantRange, AllPending;
    var s := r.sys;
    GoodIs(c, r);
    Sizes(c, s);
    AccIsTrue(c, s, k);
    WireIsTrue(c, r, Flight(FirstRange(c, k), k));
    RangeTrue(c, s.given, s.leader.p1HighestOpen, s.accs[k], FirstRange(c, k));
    forall i: nat | 1 <= i
      ensures !A.Gone(s.accs[k], i)
    {
      UnfinishedNotGone(c, s.given, s.leader.p1HighestOpen, s.accs[k], 0, i);
    }
  }

  lemma {:induction false} GrantTrip(c: L.Config, r: Net, k: nat) returns (r': Net)
    requires Granting(c, r, k) && k <= |r.sys.accs|
    ensures Leads(c, r, r') && Granting(c, r', |r.sys.accs|) && |r'.sys.accs| == |r.sys.accs|
    decreases |r.sys.accs| - k
  {
    hide Good, A.Handle, Leads, AllPending, FirstRange;
    if k == |r.sys.accs| {
      LeadsNowhere(c, r);
      r' := r;
    } else {
      GrantsFirst(c, r, k);
      RangeOnRing(c, k);
      var act := Pass(Flight(FirstRange(c, k), k));
      var r1 := DoAct(c, r, act).value;
      LeadsByAct(c, r, r1, act);
      assert FirstRange(c, k + 1) in [FirstRange(c, k + 1)];
      r' := GrantTrip(c, r1, k + 1);
      LeadsOn(c, r, r1, r');
    }
  }

  lemma RangeOnRing(c: L.Config, k: nat)
    ensures RingMsg(FirstRange(c, k))
  {
  }

  /** The leader opens its first instances, the range is granted by every acceptor of the ring, and its answer reaches
      the leader twice: the first time it ends phase 1, the second time it stops the leader. */
  lemma RangeAnsweredTwice(c: L.Config, n: nat) returns (r: Net, r': Net, answer: Flight)
    requires L.ValidConfig(c) && c.preexec >= 2 && c.quorum <= n
    ensures Leads(c, Net(Init(c, n), {}), r) && Sized(r.sys) && Sized(r'.sys)
    ensures answer.hop == n && answer.msg == Phase1Range(1, c.preexec, FirstBallot(c), n)
    ensures DoAct(c, r, Return(answer)) == Some(r') && answer in r'.wire && |r'.sys.accs| == n
    ensures DoAct(c, r', Return(answer)) == None
    ensures Leads(c, Net(Init(c, n), {}), r') && Good(c, r') && r'.sys.submitted == []
  {
    hide Good, Leads, LeaderTrue, LeaderOk, FirstBallot, AllPending, L.FinishRange, IsMyBallot;
    var r0 := StartsGranting(c, n);
    r := GrantTrip(c, r0, 0);
    LeadsOn(c, Net(Init(c, n), {}), r0, r);
    answer := Flight(FirstRange(c, n), n);
    GoodIs(c, r);
    FirstIsMine(c);
    RangeAbortsIff(c, r.sys.leader, answer.msg);
    r' := DoAct(c, r, Return(answer)).value;
    LeadsByAct(c, r, r', Return(answer));
    LeadsOn(c, Net(Init(c, n), {}), r, r');
    FinishRangeEnds(r.sys.leader, 1, c.preexec);
    GoodIs(c, r');
    NotPending(r'.sys.leader, c.preexec);
    HandlePhase1RangeKeeps(c, r.sys.leader, answer.msg);
    RangeAbortsIff(c, r'.sys.leader, answer.msg);
  }

  /** The same answer a third time, after a value was assigned to instance 1 and closed: it is below the closed bound,
      and stops the leader there. */
  lemma RangeAfterClosing(c: L.Config, n: nat) returns (r: Net, answer: Flight)
    requires L.ValidConfig(c) && c.preexec >= 2 && c.quorum <= n
    ensures Leads(c, Net(Init(c, n), {}), r) && Sized(r.sys) && |r.sys.accs| == n
    ensures answer.hop == n && answer.msg == Phase1Range(1, c.preexec, FirstBallot(c), n) && answer in r.wire
    ensures r.sys.leader.highestClosed >= answer.msg.from && DoAct(c, r, Return(answer)) == None
  {
    hide Good, Leads, LeaderTrue, LeaderOk, FirstBallot, L.FinishRange, IsMyBallot, DoAct;
    var r0, r1;
    r0, r1, answer := RangeAnsweredTwice(c, n);
    GoodIs(c, r1);
    var r2 := TakesOne(c, r1);
    r := CanCloseAll(c, r2);
    LeadsOn(c, r1, r2, r);
    LeadsOn(c, Net(Init(c, n), {}), r1, r);
    LeadsGrows(c, r1, r);
    GoodIs(c, r);
    BelowClosed(c, r, answer);
  }

  lemma BelowClosed(c: L.Config, r: Net, answer: Flight)
    requires Sized(r.sys) && answer.msg.Phase1Range? && answer.msg.ballot == FirstBallot(c) && L.ValidConfig(c)
    requires answer.msg.from <= r.sys.leader.highestClosed
    ensures DoAct(c, r, Return(answer)) == None
  {
    hide FirstBallot, IsMyBallot;
    FirstIsMine(c);
  }

  lemma NotPending(l: L.Leader, last: nat)
    requires |l.slots| > 0 && 1 <= last && L.Slot(l, 1).status == P1Done
    ensures !AllPending(l, 1, last)
  {
  }

  // ----- a mapping that comes after its slot was reused -----

  /** A run that closes k instances and more. */
  lemma {:induction false} RunThatCloses(c: L.Config, n: nat, k: nat) returns (run: seq<Sys>, steps: seq<Step>)
    requires L.ValidConfig(c) && c.preexec >= 2 && c.quorum <= n
    ensures IsRun(c, n, run, steps)
    ensures run[|run| - 1].leader.highestClosed == |run[|run| - 1].submitted| >= k && run[|run| - 1].leader.queue == []
  {
    hide Good, Leads, LeaderTrue, LeaderOk, Next, L.ValidConfig, DoAct, SubmitStep;
    if k == 0 {
      run, steps := [Init(c, n)], [];
    } else {
      var run1, steps1 := RunThatCloses(c, n, k - 1);
      var s := Net(run1[|run1| - 1], {});
      RunEnd(c, n, run1, steps1);
      var r1 := TakesOne(c, s);
      var r2 := CanCloseAll(c, r1);
      LeadsOn(c, s, r1, r2);
      run, steps := RunLeads(c, n, run1, steps1, s, r2);
    }
  }

  lemma RunLeads(c: L.Config, n: nat, run1: seq<Sys>, steps1: seq<Step>, r: Net, r2: Net)
    returns (run: seq<Sys>, steps: seq<Step>)
    requires IsRun(c, n, run1, steps1) && r.sys == run1[|run1| - 1] && Good(c, r) && Leads(c, r, r2)
    ensures IsRun(c, n, run, steps) && run[|run| - 1] == r2.sys
  {
    hide Good, Next, L.ValidConfig, DoAll;
    var acts :| DoAll(c, r, acts) == Some(r2);
    run, steps := RouteIsRun(c, n, run1, steps1, r, acts);
  }

  lemma TakesOne(c: L.Config, r: Net) returns (r': Net)
    requires Good(c, r) && r.sys.leader.queue == [] && r.sys.leader.highestClosed == |r.sys.submitted|
    ensures Leads(c, r, r') && Good(c, r') && |r'.sys.accs| == |r.sys.accs| && |r'.sys.submitted| == |r.sys.submitted| + 1
  {
    hide Good, Leads, LeaderTrue, LeaderOk;
    GoodIs(c, r);
    LeaderBounds(c, r.sys.leader);
    r' := DoAct(c, r, Take([])).value;
    LeadsByAct(c, r, r', Take([]));
  }

  /** After enough instances the mapping of instance 1, handed late to any acceptor, stops it: a newer instance took the
      slot. */
  lemma LateMapping(c: L.Config, n: nat, a: nat) returns (run: seq<Sys>, steps: seq<Step>, late: Msg)
    requires L.ValidConfig(c) && c.preexec >= 2 && c.quorum <= n && a < n
    ensures IsRun(c, n, run, steps) && Sized(run[|run| - 1]) && |run[|run| - 1].accs| == n
    ensures late.CmdMap? && late.inst == 1 && late in run[|run| - 1].net
    ensures Do(c, run[|run| - 1], ToAcceptor(a, late)) == None
  {
    hide Inv, Next, L.ValidConfig, AcceptorStep, A.Gone, Announced, LeaderTrue, LeaderOk;
    run, steps := RunThatCloses(c, n, c.workingSet + 1);
    RunEnd(c, n, run, steps);
    AnnouncedInRuns(c, n, run, steps, |run| - 1);
    var s := run[|run| - 1];
    GoodIs(c, Net(s, {}));
    late := MapOf(s.given, 0);
    var newer := MapOf(s.given, c.workingSet);
    MapSent(s, 0);
    MapSent(s, c.workingSet);
    AcceptorStepKeeps(c, s, a, newer);
    if AcceptorStep(s, a, newer).Some? {
      var s' := AcceptorStep(s, a, newer).value;
      TakesSlot(c, s, s', a, newer);
      run, steps := Handed(c, n, run, steps, s', a, newer);
      s := s';
      Sizes(c, s);
    } else {
      GoneBefore(c, s, a, newer);
    }
    AcceptorStepKeeps(c, s, a, late);
    assert Concerns(late, 1);
  }

  /** After enough instances a learner's request for the mapping of instance 1 stops the leader: a newer instance took
      the record. */
  lemma LateRequest(c: L.Config, n: nat) returns (run: seq<Sys>, steps: seq<Step>)
    requires L.ValidConfig(c) && c.preexec >= 2 && c.quorum <= n
    ensures IsRun(c, n, run, steps) && Sized(run[|run| - 1]) && Askable(run[|run| - 1], 1)
    ensures Do(c, run[|run| - 1], AskMapping(1, true)) == None
  {
    hide Inv, Next, L.ValidConfig, LeaderTrue, LeaderOk, L.HandleMapRequest;
    run, steps := RunThatCloses(c, n, 2 * c.workingSet + 1);
    RunEnd(c, n, run, steps);
    var s := run[|run| - 1];
    GoodIs(c, Net(s, {}));
    AskedAgain(c, s, 1);
    NewerRecord(c, s.leader);
  }

  lemma NewerRecord(c: L.Config, l: L.Leader)
    requires LeaderOk(c, l) && 2 * c.workingSet + 1 <= l.p1HighestOpen
    ensures |l.slots| > 0 && L.Slot(l, 1).inst > 1
  {
    var i := 2 * c.workingSet + 1;
    NextLap(1, |l.slots|);
    assert L.Slot(l, i).inst >= i;
  }

  lemma Handed(c: L.Config, n: nat, run: seq<Sys>, steps: seq<Step>, s': Sys, a: nat, m: Msg)
    returns (run': seq<Sys>, steps': seq<Step>)
    requires IsRun(c, n, run, steps) && Sized(run[|run| - 1]) && a < |run[|run| - 1].accs| && m in run[|run| - 1].net
    requires AcceptorStep(run[|run| - 1], a, m) == Some(s')
    ensures IsRun(c, n, run', steps') && run'[|run'| - 1] == s'
  {
    hide L.ValidConfig, AcceptorStep;
    var s := run[|run| - 1];
    assert Next(c, s, s', ToAcceptor(a, m));
    hide Next;
    run', steps' := ExtendRun(c, n, run, steps, [s, s'], [ToAcceptor(a, m)]);
  }

  lemma MapSent(s: Sys, j: nat)
    requires Announced(s) && j < |s.given|
    ensures MapOf(s.given, j) in s.net
  {
  }

  lemma SharesSlot(c: L.Config, s: Sys, a: nat)
    requires Inv(c, s) && a < |s.accs|
    ensures Sized(s) && |s.accs[a].slots| == c.workingSet && (c.workingSet + 1) % c.workingSet == 1 % c.workingSet
  {
    hide LeaderTrue, NetTrue, Conserved;
    Sizes(c, s);
    assert AccTrue(c, s.given, s.leader.p1HighestOpen, s.accs[a]);
    Wraps(c.workingSet);
  }

  lemma Wraps(w: nat)
    requires w > 0
    ensures (w + 1) % w == 1 % w
  {
  }

  lemma TakesSlot(c: L.Config, s: Sys, s': Sys, a: nat, m: Msg)
    requires Inv(c, s) && a < |s.accs| && Sized(s) && m.CmdMap? && m.inst == c.workingSet + 1
    requires AcceptorStep(s, a, m) == Some(s')
    ensures |s'.accs[a].slots| > 0 && A.Gone(s'.accs[a], 1)
  {
    hide Inv, A.MapInto;
    SharesSlot(c, s, a);
    KeepsInstance(A.RecordOf(s.accs[a], m.inst), m);
  }

  lemma KeepsInstance(r: A.Rec, m: Msg)
    requires m.CmdMap? && A.MapInto(r, m.key, m.bytes).Some?
    ensures A.MapInto(r, m.key, m.bytes).value.inst == r.inst
  {
  }

  lemma GoneBefore(c: L.Config, s: Sys, a: nat, m: Msg)
    requires Inv(c, s) && a < |s.accs| && Sized(s) && m.CmdMap? && m.inst == c.workingSet + 1
    requires exists i :: Concerns(m, i) && A.Gone(s.accs[a], i)
    ensures A.Gone(s.accs[a], 1)
  {
    hide Inv;
    SharesSlot(c, s, a);
  }
}
