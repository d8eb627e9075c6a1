/** The single-leader system with its messages on the ring: a ring message goes from the leader to acceptor 0, 1, 2, ...
    in this order and from the last one back to the leader. Messages may still be lost, repeated and overtaken. */
module RingRoute {
  import opened RingTypes
  import opened Ballots
  import opened DequeSpec
  import opened LeaderInv
  import opened LeaderTruth
  import opened AcceptorTruth
  import opened TotalOrder
  import opened TotalOrderRuns
  import L = LeaderSpec
  import A = AcceptorSpec

  /** A message on the wire that `hop` acceptors have handled: the next node is acceptor number `hop`, or the leader
      after the last acceptor. */
  datatype Flight = Flight(msg: Msg, hop: nat)

  datatype Net = Net(sys: Sys, wire: set<Flight>)

  /** Take: a client value arrives. Check: the leader's periodic check. Learn: an acceptor gets a mapping, which is
      multicast. Pass: the next acceptor handles a ring message. Return: the leader handles one that went round.
      Ask: the leader gets a learner's request for a mapping or for a chosen key. */
  datatype Act =
    | Take(bytes: Bytes)
    | Check(expired: set<nat>)
    | Learn(a: nat, f: Flight)
    | Pass(f: Flight)
    | Return(f: Flight)
    | Ask(inst: nat, chosen: bool)

  function Flights(ms: seq<Msg>, hop: nat): set<Flight> {
    set m | m in ms :: Flight(m, hop)
  }

  function Answer(c: L.Config, l: L.Leader, m: Msg): Option<(L.Leader, seq<Msg>)>
    requires |l.slots| > 0 && RingMsg(m)
  {
    match m
    case Phase1(_, _, _, _, _, _, _) => L.HandlePhase1(c, l, m)
    case Phase1Range(_, _, _, _) => L.HandlePhase1Range(c, l, m)
    case Phase2(_, _, _, _) => L.HandlePhase2(c, l, m)
  }

  function CheckAct(c: L.Config, r: Net, expired: set<nat>): Option<Net>
    requires |r.sys.leader.slots| > 0
  {
    match L.Periodic(c, r.sys.leader, expired)
    case None => None
    case Some((l, sends, mappings)) =>
      Some(Net(r.sys.(leader := l, net := r.sys.net + Sends(sends), given := r.sys.given + mappings),
               r.wire + Flights(sends, 0)))
  }

  function LearnAct(r: Net, a: nat, m: Msg): Option<Net>
    requires a < |r.sys.accs| && |r.sys.accs[a].slots| > 0
  {
    match AcceptorStep(r.sys, a, m)
    case None => None
    case Some(s) => Some(r.(sys := s))
  }

  function PassAct(r: Net, f: Flight): Option<Net>
    requires f.hop < |r.sys.accs| && |r.sys.accs[f.hop].slots| > 0
  {
    match A.Handle(r.sys.accs[f.hop], f.msg)
    case None => None
    case Some((acc, sends)) =>
      Some(Net(r.sys.(accs := r.sys.accs[f.hop := acc], net := r.sys.net + Sends(sends)),
               r.wire + Flights(sends, f.hop + 1)))
  }

  function ReturnAct(c: L.Config, r: Net, m: Msg): Option<Net>
    requires |r.sys.leader.slots| > 0 && RingMsg(m)
  {
    match Answer(c, r.sys.leader, m)
    case None => None
    case Some((l, sends)) =>
      Some(Net(r.sys.(leader := l, net := r.sys.net + Sends(sends)), r.wire + Flights(sends, 0)))
  }

  function AskAct(r: Net, inst: nat, chosen: bool): Option<Net>
    requires |r.sys.leader.slots| > 0
  {
    match if chosen then L.HandleChosenRequest(r.sys.leader, inst) else L.HandleMapRequest(r.sys.leader, inst, true)
    case None => None
    case Some((l, sends)) =>
      Some(Net(r.sys.(leader := l, net := r.sys.net + Sends(sends)), r.wire + Flights(sends, 0)))
  }

  /** None when the message is not where the act needs it, or when an assertion of the node fails. */
  function DoAct(c: L.Config, r: Net, act: Act): Option<Net>
    requires Sized(r.sys)
  {
    match act
    case Take(bytes) => Some(r.(sys := SubmitStep(c, r.sys, bytes).value))
    case Check(expired) => CheckAct(c, r, expired)
    case Learn(a, f) => if f in r.wire && f.msg.CmdMap? && a < |r.sys.accs| then LearnAct(r, a, f.msg) else None
    case Pass(f) => if f in r.wire && RingMsg(f.msg) && f.hop < |r.sys.accs| then PassAct(r, f) else None
    case Return(f) => if f in r.wire && RingMsg(f.msg) && f.hop == |r.sys.accs| then ReturnAct(c, r, f.msg) else None
    case Ask(inst, chosen) => if Askable(r.sys, inst) then AskAct(r, inst, chosen) else None
  }

  function DoAll(c: L.Config, r: Net, acts: seq<Act>): Option<Net>
    decreases |acts|
  {
    if acts == [] then
      Some(r)
    else if !Sized(r.sys) then
      None
    else
      match DoAct(c, r, acts[0])
      case None => None
      case Some(r1) => DoAll(c, r1, acts[1..])
  }

  lemma {:induction false} DoAllJoin(c: L.Config, r: Net, acts1: seq<Act>, acts2: seq<Act>)
    requires DoAll(c, r, acts1).Some?
    ensures DoAll(c, r, acts1 + acts2) == DoAll(c, DoAll(c, r, acts1).value, acts2)
    decreases |acts1|
  {
    hide DoAct;
    if acts1 == [] {
      assert acts1 + acts2 == acts2;
    } else {
      DoAllJoin(c, DoAct(c, r, acts1[0]).value, acts1[1..], acts2);
      assert (acts1 + acts2)[1..] == acts1[1..] + acts2;
    }
  }

  lemma DoOne(c: L.Config, r: Net, act: Act)
    requires Sized(r.sys)
    ensures DoAll(c, r, [act]) == DoAct(c, r, act)
  {
    hide DoAct;
    if DoAct(c, r, act).Some? {
      assert DoAll(c, DoAct(c, r, act).value, []) == DoAct(c, r, act);
    }
  }

  // ----- the ring is one of the networks of TotalOrder -----

  ghost predicate Path(c: L.Config, run: seq<Sys>, steps: seq<Step>) {
    |run| == |steps| + 1 && forall j :: 0 <= j < |steps| ==> Next(c, run[j], run[j + 1], steps[j])
  }

  /** The invariant of the system, and only messages that were sent are on the wire. */
  ghost predicate Good(c: L.Config, r: Net) {
    Inv(c, r.sys) && forall f :: f in r.wire ==> f.msg in r.sys.net
  }

  /** One or three steps of TotalOrder do what an act does. */
  lemma ActIsSteps(c: L.Config, r: Net, r': Net, act: Act) returns (run: seq<Sys>, steps: seq<Step>)
    requires Good(c, r) && Sized(r.sys) && DoAct(c, r, act) == Some(r')
    ensures Path(c, run, steps) && run[0] == r.sys && run[|run| - 1] == r'.sys
    ensures Good(c, r') && Grown(r.sys, r'.sys) && Sized(r'.sys) && r.wire <= r'.wire
  {
    hide Inv, Grown, L.Periodic, L.HandlePhase1, L.HandlePhase1Range, L.HandlePhase2, A.Handle, L.OpenPhase1, L.OpenPhase2,
      L.CheckExpired, L.HandleMapRequest, L.HandleChosenRequest, Askable;
    match act
    case Take(bytes) =>
      run, steps := [r.sys, r'.sys], [Submit(bytes)];
      StepKeeps(c, r.sys, r'.sys, Submit(bytes));
      Sizes(c, r'.sys);
    case Check(expired) =>
      run, steps := CheckIsSteps(c, r, r', expired);
    case Learn(a, f) =>
      run, steps := [r.sys, r'.sys], [ToAcceptor(a, f.msg)];
      StepKeeps(c, r.sys, r'.sys, ToAcceptor(a, f.msg));
      Sizes(c, r'.sys);
    case Pass(f) =>
      run, steps := [r.sys, r'.sys], [ToAcceptor(f.hop, f.msg)];
      StepKeeps(c, r.sys, r'.sys, ToAcceptor(f.hop, f.msg));
      Sizes(c, r'.sys);
    case Return(f) =>
      run, steps := [r.sys, r'.sys], [ToLeader(f.msg)];
      StepKeeps(c, r.sys, r'.sys, ToLeader(f.msg));
      Sizes(c, r'.sys);
    case Ask(inst, chosen) =>
      var step := if chosen then AskChosen(inst) else AskMapping(inst, true);
      run, steps := [r.sys, r'.sys], [step];
      StepKeeps(c, r.sys, r'.sys, step);
      Sizes(c, r'.sys);
  }

  /** The states inside one periodic check. */
  lemma CheckParts(c: L.Config, s: Sys, expired: set<nat>) returns (s1: Sys, s2: Sys, s3: Sys)
    requires Inv(c, s)
    ensures Sized(s) && Next(c, s, s1, OpenPhase1) && Next(c, s1, s2, Timeouts(expired)) && Next(c, s2, s3, OpenPhase2)
    ensures Inv(c, s1) && s1.given == s.given && Inv(c, s2) && s2 == s1.(net := s2.net)
    ensures Inv(c, s3) && Grown(s, s3) && Sized(s3)
    ensures L.OpenPhase1(c, s.leader).Some? && s1.leader == L.OpenPhase1(c, s.leader).value.0
    ensures L.Periodic(c, s.leader, expired).Some?
    ensures var (l, sends, mappings) := L.Periodic(c, s.leader, expired).value;
            s3 == s.(leader := l, net := s.net + Sends(sends), given := s.given + mappings)
    ensures L.OpenPhase2(c, s1.leader, 0).Some? && s3.leader == L.OpenPhase2(c, s1.leader, 0).value.0
    ensures s3.given == s.given + L.OpenPhase2(c, s1.leader, 0).value.2
    ensures var again := L.CheckExpired(s1.leader, s1.leader.highestClosed + 1, L.Highest(s1.leader), expired);
            again.Some? && forall m :: m in again.value.1 ==> m in L.Periodic(c, s.leader, expired).value.1
  {
    hide Inv, Grown, L.OpenPhase1, L.OpenPhase2, L.CheckExpired, L.Highest, LeaderOk, LeaderTrue;
    Sizes(c, s);
    OpenPhase1StepKeeps(c, s);
    s1 := After(s, L.OpenPhase1(c, s.leader)).value;
    Sizes(c, s1);
    TimeoutsKeep(c, s1, expired);
    var again := L.CheckExpired(s1.leader, s1.leader.highestClosed + 1, L.Highest(s1.leader), expired);
    s2 := After(s1, again).value;
    LeaderIs(c, s1);
    CheckExpiredTrue(c, s1.given, s1.leader, s1.leader.highestClosed + 1, L.Highest(s1.leader), expired) by {
      HighestIs(c, s1);
    }
    Sizes(c, s2);
    OpenPhase2StepKeeps(c, s2);
    s3 := OpenPhase2Step(c, s2).value;
    Sizes(c, s3);
    var (l, sends, mappings) := L.Periodic(c, s.leader, expired).value;
    assert s.net + Sends(sends) == s3.net;
    GrownTrans(s, s1, s2);
    GrownTrans(s, s2, s3);
  }

  lemma HighestIs(c: L.Config, s: Sys)
    requires Inv(c, s)
    ensures L.Highest(s.leader) == s.leader.p1HighestOpen
  {
    hide Inv;
    Sizes(c, s);
  }

  lemma GrownTrans(s: Sys, s1: Sys, s2: Sys)
    requires Grown(s, s1) && Grown(s1, s2)
    ensures Grown(s, s2)
  {
  }

  lemma CheckIsSteps(c: L.Config, r: Net, r': Net, expired: set<nat>) returns (run: seq<Sys>, steps: seq<Step>)
    requires Good(c, r) && Sized(r.sys) && CheckAct(c, r, expired) == Some(r')
    ensures Path(c, run, steps) && run[0] == r.sys && run[|run| - 1] == r'.sys
    ensures Good(c, r') && Grown(r.sys, r'.sys) && Sized(r'.sys) && r.wire <= r'.wire
  {
    hide Inv, Next, L.Periodic;
    var s1, s2, s3 := CheckParts(c, r.sys, expired);
    run, steps := [r.sys, s1, s2, s3], [OpenPhase1, Timeouts(expired), OpenPhase2];
  }

  lemma {:induction false} DoAllKeeps(c: L.Config, r: Net, acts: seq<Act>)
    requires Good(c, r) && DoAll(c, r, acts).Some?
    ensures Good(c, DoAll(c, r, acts).value) && Grown(r.sys, DoAll(c, r, acts).value.sys)
    ensures r.wire <= DoAll(c, r, acts).value.wire
    decreases |acts|
  {
    hide Good, DoAct, Sized;
    if acts != [] {
      var r1 := DoAct(c, r, acts[0]).value;
      var run, steps := ActIsSteps(c, r, r1, acts[0]);
      DoAllKeeps(c, r1, acts[1..]);
    }
  }

  /** Whatever happens on the ring after a run, the system was in a run of TotalOrder all the time. */
  lemma {:induction false} RouteIsRun(c: L.Config, n: nat, run: seq<Sys>, steps: seq<Step>, r: Net, acts: seq<Act>)
    returns (run': seq<Sys>, steps': seq<Step>)
    requires IsRun(c, n, run, steps) && r.sys == run[|run| - 1] && Good(c, r) && DoAll(c, r, acts).Some?
    ensures IsRun(c, n, run', steps') && run'[|run'| - 1] == DoAll(c, r, acts).value.sys && run <= run'
    decreases |acts|
  {
    hide Good, DoAct, Sized, Next, L.ValidConfig;
    if acts == [] {
      run', steps' := run, steps;
    } else {
      var r1 := DoAct(c, r, acts[0]).value;
      var run1, steps1 := ActIsSteps(c, r, r1, acts[0]);
      var run2, steps2 := ExtendRun(c, n, run, steps, run1, steps1);
      run', steps' := RouteIsRun(c, n, run2, steps2, r1, acts[1..]);
    }
  }

  lemma ExtendRun(c: L.Config, n: nat, run: seq<Sys>, steps: seq<Step>, run1: seq<Sys>, steps1: seq<Step>)
    returns (run': seq<Sys>, steps': seq<Step>)
    requires IsRun(c, n, run, steps) && Path(c, run1, steps1) && run1[0] == run[|run| - 1]
    ensures IsRun(c, n, run', steps') && run'[|run'| - 1] == run1[|run1| - 1] && run <= run'
  {
    hide Next, L.ValidConfig;
    run', steps' := run + run1[1..], steps + steps1;
    forall j | 0 <= j < |steps'|
      ensures Next(c, run'[j], run'[j + 1], steps'[j])
    {
      if j >= |steps| {
        var i := j - |steps|;
        assert Next(c, run1[i], run1[i + 1], steps1[i]);
        assert run'[j] == run1[i] && run'[j + 1] == run1[i + 1];
      }
    }
  }

  // ----- what the counters of ring messages say -----

  /** Nothing counts more acceptors than it met; a phase 2 message counts exactly those. */
  predicate CountsHops(f: Flight) {
    match f.msg
    case Phase1(_, _, promises, _, _, _, _) => promises <= f.hop
    case Phase1Range(_, _, _, promises) => promises <= f.hop
    case Phase2(_, _, accepts, _) => accepts == f.hop
    case _ => true
  }

  ghost predicate Counted(r: Net) {
    forall f :: f in r.wire ==> CountsHops(f) && f.hop <= |r.sys.accs|
  }

  lemma {:induction false} BreakCounts(a: A.Acceptor, from: nat, last: nat, ballot: nat, promises: nat, hop: nat)
    requires |a.slots| > 0 && promises <= hop && A.BreakRange(a, from, last, ballot, promises).Some?
    ensures forall m :: m in A.BreakRange(a, from, last, ballot, promises).value.1 ==> CountsHops(Flight(m, hop + 1))
    decreases last + 1 - from
  {
    if from <= last {
      var (a1, m1) := A.HandlePhase1(a, NewPhase1(from, ballot, promises)).value;
      BreakCounts(a1, from + 1, last, ballot, promises, hop);
      assert CountsHops(Flight(m1, hop + 1));
    }
  }

  lemma PassCounts(a: A.Acceptor, f: Flight)
    requires |a.slots| > 0 && CountsHops(f) && RingMsg(f.msg) && A.Handle(a, f.msg).Some?
    ensures forall m :: m in A.Handle(a, f.msg).value.1 ==> CountsHops(Flight(m, f.hop + 1))
  {
    hide A.BreakRange, A.GrantRange, A.VoteOn;
    if f.msg.Phase1Range? && f.msg.from <= a.highestSeen {
      BreakCounts(a, f.msg.from, f.msg.to, f.msg.ballot, f.msg.promises, f.hop);
    }
  }

  lemma AnswerCounts(c: L.Config, l: L.Leader, m: Msg)
    requires |l.slots| > 0 && RingMsg(m) && Answer(c, l, m).Some?
    ensures forall x :: x in Answer(c, l, m).value.1 ==> CountsHops(Flight(x, 0))
  {
    hide L.Get, L.Slot, L.SetSlot, L.FinishRange, L.AdvanceClosed, IsMyBallot;
  }

  lemma {:induction false} ExpiredCounts(l: L.Leader, i: nat, last: nat, expired: set<nat>)
    requires |l.slots| > 0 && L.CheckExpired(l, i, last, expired).Some?
    ensures forall x :: x in L.CheckExpired(l, i, last, expired).value.1 ==> CountsHops(Flight(x, 0))
    decreases last + 1 - i
  {
    if i <= last {
      ExpiredCounts(L.Get(l, i).value, i + 1, last, expired);
    }
  }

  lemma OpenedCounts(c: L.Config, l: L.Leader)
    requires |l.slots| > 0 && L.OpenOne(c, l).Opened?
    ensures |L.OpenOne(c, l).leader.slots| > 0 && |L.OpenOne(c, l).leader.queue| < |l.queue|
    ensures forall x :: x in L.OpenOne(c, l).sends ==> CountsHops(Flight(x, 0))
  {
    hide L.UnsignedRoom, L.NextSeqNumber;
  }

  lemma {:induction false} OpenPhase2Counts(c: L.Config, l: L.Leader, count: nat)
    requires |l.slots| > 0 && L.OpenPhase2(c, l, count).Some?
    ensures forall x :: x in L.OpenPhase2(c, l, count).value.1 ==> CountsHops(Flight(x, 0))
    decreases |l.queue|
  {
    hide L.OpenOne, CountsHops;
    var o := L.OpenOne(c, l);
    if o.Opened? {
      OpenedCounts(c, l);
      if count + 1 < c.maxPerIteration {
        OpenPhase2Counts(c, o.leader, count + 1);
      }
    }
  }

  lemma CheckCounts(c: L.Config, l: L.Leader, expired: set<nat>)
    requires |l.slots| > 0 && L.Periodic(c, l, expired).Some?
    ensures forall x :: x in L.Periodic(c, l, expired).value.1 ==> CountsHops(Flight(x, 0))
  {
    hide L.OpenPhase2, L.CheckExpired, L.Highest, L.PrepareRange, L.ActiveCount, MakeFirstBallot;
    var (l1, sends1) := L.OpenPhase1(c, l).value;
    L.OpenPhase1Size(c, l);
    L.CheckExpiredSize(l1, l1.highestClosed + 1, L.Highest(l1), expired);
    ExpiredCounts(l1, l1.highestClosed + 1, L.Highest(l1), expired);
    OpenPhase2Counts(c, L.CheckExpired(l1, l1.highestClosed + 1, L.Highest(l1), expired).value.0, 0);
  }

  lemma ActCounts(c: L.Config, r: Net, act: Act)
    requires Sized(r.sys) && Counted(r) && DoAct(c, r, act).Some?
    ensures Counted(DoAct(c, r, act).value)
  {
    hide L.Periodic, Answer, A.Handle, CountsHops, SubmitStep, L.HandleMapRequest, L.HandleChosenRequest;
    match act
    case Take(bytes) => TakeKeepsAccs(c, r.sys, bytes);
    case Check(expired) => CheckCounts(c, r.sys.leader, expired);
    case Learn(a, f) =>
    case Pass(f) => PassCounts(r.sys.accs[f.hop], f);
    case Return(f) => AnswerCounts(c, r.sys.leader, f.msg);
    case Ask(inst, chosen) => AskCounts(r.sys.leader, inst);
  }

  lemma AskCounts(l: L.Leader, inst: nat)
    requires |l.slots| > 0
    ensures L.HandleMapRequest(l, inst, true).Some? ==>
      forall x :: x in L.HandleMapRequest(l, inst, true).value.1 ==> CountsHops(Flight(x, 0))
    ensures L.HandleChosenRequest(l, inst).Some? ==>
      forall x :: x in L.HandleChosenRequest(l, inst).value.1 ==> CountsHops(Flight(x, 0))
  {
  }

  lemma TakeKeepsAccs(c: L.Config, s: Sys, bytes: Bytes)
    ensures SubmitStep(c, s, bytes).Some? && SubmitStep(c, s, bytes).value.accs == s.accs
  {
  }

  /** On the ring a phase 2 message counts one accept for every acceptor it met, and no message ever counts more
      acceptors than it met. */
  lemma {:induction false} RouteCounts(c: L.Config, r: Net, acts: seq<Act>)
    requires Counted(r) && DoAll(c, r, acts).Some?
    ensures Counted(DoAll(c, r, acts).value)
    decreases |acts|
  {
    hide Counted, DoAct, Sized;
    if acts != [] {
      ActCounts(c, r, acts[0]);
      RouteCounts(c, DoAct(c, r, acts[0]).value, acts[1..]);
    }
  }
}
