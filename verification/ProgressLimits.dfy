/** When the single-leader system can finish everything it was given, and when it waits for ever. */
module ProgressLimits {
  import opened RingTypes
  import opened DequeSpec
  import opened LeaderRecord
  import opened LeaderInv
  import opened LeaderTruth
  import opened DeliverySpec
  import opened TotalOrder
  import opened TotalOrderRuns
  import opened RingRoute
  import opened TotalOrderProgress
  import opened Announcements
  import opened Recovery
  import L = LeaderSpec
  import A = AcceptorSpec

  ghost predicate Delivers(size: nat, ms: seq<Msg>, log: seq<Bytes>) {
    HandleAll(InitQueue(size), ms).Some? && HandleAll(InitQueue(size), ms).value.log == log
  }

  /** A learner with room for an undelivered instance that was handed `ms` can be handed more of what was broadcast so
      that it has delivered exactly the submitted values. */
  ghost predicate LearnerCanFinish(s: Sys, size: nat, ms: seq<Msg>) {
    size > 1 && Sent(s, ms) ==> exists more :: Sent(s, more) && Delivers(size, ms + more, s.submitted)
  }

  ghost predicate LearnersCanFinish(s: Sys) {
    forall size, ms :: LearnerCanFinish(s, size, ms)
  }

  /** Every submitted value is assigned and closed, and learners can deliver all of them. */
  ghost predicate Finished(s: Sys) {
    s.leader.highestClosed == s.leader.highestOpen == |s.submitted| && s.leader.queue == [] && LearnersCanFinish(s)
  }

  ghost predicate ComesBy(r: Net, ms: seq<Msg>) {
    forall m :: m in ms ==> m in OnWire(r)
  }

  /** A learner that was handed `ms` in state s, and misses nothing that the leader no longer has, can do the same with
      what is sent from then on, although every other broadcast before is lost to it. */
  ghost predicate LearnerRecovers(s: Sys, r: Net, size: nat, ms: seq<Msg>) {
    size > 1 && Sent(s, ms) && Served(s, size, ms) ==>
      exists more :: ComesBy(r, more) && Delivers(size, ms + more, r.sys.submitted)
  }

  ghost predicate LearnersRecover(s: Sys, r: Net) {
    forall size, ms :: LearnerRecovers(s, r, size, ms)
  }

  /** Some continuation on the ring, with nothing left on the wire from before, finishes what was submitted. */
  ghost predicate CanFinish(c: L.Config, s: Sys) {
    exists r :: Leads(c, Net(s, {}), r) && r.sys.submitted == s.submitted && Finished(r.sys) && LearnersRecover(s, r)
  }

  // ----- it can -----

  lemma LearnersFinish(c: L.Config, s: Sys)
    requires Inv(c, s) && Announced(s) && s.leader.highestClosed == |s.submitted| && s.leader.queue == []
    ensures LearnersCanFinish(s)
  {
    hide Inv, HandleAll, Announced;
    Sizes(c, s);
    ValuesAre(c, s);
    forall size, ms
      ensures LearnerCanFinish(s, size, ms)
    {
      if size > 1 && Sent(s, ms) {
        var more := CanCatchUp(c, s, size, ms);
        assert Delivers(size, ms + more, s.submitted);
      }
    }
  }

  lemma ServedRecover(c: L.Config, s: Sys, r: Net)
    requires Good(c, Net(s, {})) && Leads(c, Net(s, {}), r)
    requires r.sys.leader.highestClosed == |r.sys.submitted| && r.sys.leader.queue == []
    requires forall j :: 0 <= j < r.sys.leader.highestClosed && (j < s.leader.highestClosed ==> Held(s.leader, j)) ==>
      Has(r.sys.given, OnWire(r), j)
    ensures LearnersRecover(s, r)
  {
    hide Leads, HandleAll, Has, Held, Inv;
    LeadsGrows(c, Net(s, {}), r);
    Sizes(c, r.sys);
    ValuesAre(c, r.sys);
    assert OnWire(r) <= r.sys.net;
    forall size, ms
      ensures LearnerRecovers(s, r, size, ms)
    {
      if size > 1 && Sent(s, ms) && Served(s, size, ms) {
        var more := CatchesUp(c, r.sys, size, ms, OnWire(r));
        assert Delivers(size, ms + more, r.sys.submitted);
      }
    }
  }

  lemma ValuesAre(c: L.Config, s: Sys)
    requires Inv(c, s) && s.leader.queue == []
    ensures BytesGiven(s.given) == s.submitted
  {
    hide LeaderTrue, NetTrue, AccsTrue;
  }

  lemma RunEnd(c: L.Config, n: nat, run: seq<Sys>, steps: seq<Step>)
    requires IsRun(c, n, run, steps)
    ensures Good(c, Net(run[|run| - 1], {})) && |run[|run| - 1].accs| == n
  {
    hide Next, Inv, L.ValidConfig;
    RunKeeps(c, n, run, steps, |run| - 1);
    RunGrows(c, n, run, steps, 0, |run| - 1);
    GoodEmpty(c, run[|run| - 1]);
  }

  /** From every state of every run, everything submitted can be assigned, closed and delivered, although every message
      under way is lost, with two preexecuted instances and a quorum on the ring. Learners that miss no more than the
      leader still has need nothing that was broadcast before. */
  lemma EveryRunCanFinish(c: L.Config, n: nat, run: seq<Sys>, steps: seq<Step>)
    requires IsRun(c, n, run, steps) && c.preexec >= 2 && c.quorum <= n
    ensures CanFinish(c, run[|run| - 1])
  {
    hide Next, Good, Leads, L.ValidConfig, LearnersCanFinish, LearnersRecover, Announced, Inv, Held, Has;
    var s := run[|run| - 1];
    RunEnd(c, n, run, steps);
    RunKeeps(c, n, run, steps, |run| - 1);
    var r := CanFinishServing(c, s);
    ServedRecover(c, s, r);
    AnnouncedAfter(c, n, run, steps, r);
    GoodIs(c, r) by { hide LeaderTrue, LeaderInv.LeaderOk; }
    LearnersFinish(c, r.sys);
  }

  lemma AnnouncedAfter(c: L.Config, n: nat, run: seq<Sys>, steps: seq<Step>, r: Net)
    requires IsRun(c, n, run, steps) && Leads(c, Net(run[|run| - 1], {}), r)
    ensures Announced(r.sys)
  {
    hide Next, Good, L.ValidConfig, Announced, DoAll;
    var s := Net(run[|run| - 1], {});
    var acts :| DoAll(c, s, acts) == Some(r);
    RunEnd(c, n, run, steps);
    var run', steps' := RouteIsRun(c, n, run, steps, s, acts);
    AnnouncedInRuns(c, n, run', steps', |run'| - 1);
  }

  // ----- a preexecution window of one instance -----

  lemma DormantStep(c: L.Config, s: Sys, s': Sys, step: Step)
    requires Inv(c, s) && Next(c, s, s', step) && c.preexec == 1
    requires s.leader.p1HighestOpen == 0 && s.net == {}
    ensures s'.leader.p1HighestOpen == 0 && s'.net == {}
  {
    hide Inv, DequeSpec.Append, L.Get, L.Slot;
    Sizes(c, s);
  }

  /** With a preexecution window of one instance the leader never opens an instance: in every run nothing is sent,
      nothing is assigned, and every value that was submitted waits for ever. */
  lemma {:induction false} OneNeverOpens(c: L.Config, n: nat, run: seq<Sys>, steps: seq<Step>, j: nat)
    requires IsRun(c, n, run, steps) && c.preexec == 1 && j < |run|
    ensures run[j].leader.p1HighestOpen == 0 && run[j].net == {}
    ensures run[j].given == [] && Waiting(run[j].leader.queue) == run[j].submitted
  {
    hide Next, Inv, L.ValidConfig;
    if j > 0 {
      OneNeverOpens(c, n, run, steps, j - 1);
      RunKeeps(c, n, run, steps, j - 1);
      DormantStep(c, run[j - 1], run[j], steps[j - 1]);
    }
    RunKeeps(c, n, run, steps, j);
    Sizes(c, run[j]);
    Conservation(c, n, run, steps, j, j);
    assert BytesGiven(run[j].given) + Waiting(run[j].leader.queue) == Waiting(run[j].leader.queue);
  }

  // ----- a quorum that the ring does not have -----

  /** Phase 1 of no instance has ended. */
  ghost predicate NoneDone(l: L.Leader) {
    l.highestOpen == 0 && forall k :: 0 <= k < |l.slots| ==> l.slots[k].status != P1Done
  }

  ghost predicate Stuck(c: L.Config, r: Net) {
    Good(c, r) && Counted(r) && NoneDone(r.sys.leader)
  }

  lemma StuckCheck(c: L.Config, r: Net, expired: set<nat>)
    requires Stuck(c, r) && Sized(r.sys) && CheckAct(c, r, expired).Some?
    ensures NoneDone(CheckAct(c, r, expired).value.sys.leader)
  {
    hide Inv, LeaderTrue, LeaderInv.LeaderOk, L.OpenPhase1, L.OpenPhase2, L.CheckExpired, L.Highest, L.Periodic, Grown, Next;
    var s1, s2, s3 := CheckParts(c, r.sys, expired);
    LeaderIs(c, r.sys);
    LeaderIs(c, s1);
    OpenPhase1Pends(c, r.sys.leader);
    OpenPhase1Keeps(c, r.sys.leader);
    Sizes(c, s1);
    NoneOpens(c, s1.leader);
  }

  /** Without an instance whose phase 1 ended, no value is assigned. */
  lemma NoneOpens(c: L.Config, l: L.Leader)
    requires LeaderInv.LeaderOk(c, l) && NoneDone(l) && |l.slots| > 0
    ensures L.OpenPhase2(c, l, 0).Some? && L.OpenPhase2(c, l, 0).value.0 == l
  {
    hide L.UnsignedRoom, LeaderInv.LeaderOk, L.Get;
    LeaderBounds(c, l);
    OpenOneKeeps(c, l);
    if l.highestOpen < l.p1HighestOpen {
      GetOk(c, l, l.highestOpen + 1);
    }
  }

  lemma StuckAnswer(c: L.Config, r: Net, f: Flight)
    requires Stuck(c, r) && Sized(r.sys) && f in r.wire && RingMsg(f.msg) && f.hop < c.quorum
    requires ReturnAct(c, r, f.msg).Some?
    ensures NoneDone(ReturnAct(c, r, f.msg).value.sys.leader)
  {
    hide Inv, LeaderTrue, LeaderInv.LeaderOk, L.FinishRange, Ballots.IsMyBallot, FirstBallot;
    var l := r.sys.leader;
    GoodIs(c, r);
    WireIsTrue(c, r, f);
    assert CountsHops(f);
    if f.msg.Phase1? && f.msg.inst > l.highestClosed {
      OnlyLeaderIsNeverRefused(c, r.sys.given, l, f.msg);
    }
  }

  lemma StuckAct(c: L.Config, r: Net, act: Act)
    requires Stuck(c, r) && Sized(r.sys) && DoAct(c, r, act).Some? && |r.sys.accs| < c.quorum
    ensures Stuck(c, DoAct(c, r, act).value) && |DoAct(c, r, act).value.sys.accs| == |r.sys.accs|
  {
    hide Good, Counted, Inv, L.Periodic, Answer, A.Handle, NoneDone;
    var r' := DoAct(c, r, act).value;
    ActCounts(c, r, act);
    LeadsByAct(c, r, r', act);
    match act
    case Take(bytes) => TakeKeepsSlots(c, r.sys, bytes);
    case Check(expired) => StuckCheck(c, r, expired);
    case Learn(a, f) =>
    case Pass(f) =>
    case Return(f) => StuckAnswer(c, r, f);
    case Ask(inst, chosen) => NothingToAsk(r.sys);
  }

  lemma NothingToAsk(s: Sys)
    requires NoneDone(s.leader)
    ensures forall inst :: !Askable(s, inst)
  {
  }

  lemma TakeKeepsSlots(c: L.Config, s: Sys, bytes: Bytes)
    requires NoneDone(s.leader)
    ensures SubmitStep(c, s, bytes).Some? && NoneDone(SubmitStep(c, s, bytes).value.leader)
  {
  }

  lemma {:induction false} StuckForever(c: L.Config, r: Net, acts: seq<Act>)
    requires Stuck(c, r) && |r.sys.accs| < c.quorum && DoAll(c, r, acts).Some?
    ensures Stuck(c, DoAll(c, r, acts).value)
    decreases |acts|
  {
    hide Stuck, DoAct, Sized;
    if acts != [] {
      StuckAct(c, r, acts[0]);
      StuckForever(c, DoAct(c, r, acts[0]).value, acts[1..]);
    }
  }

  /** With a quorum larger than the number of acceptors on the ring, no message ever comes back with enough promises:
      whatever happens on the ring, no instance is ever assigned. */
  lemma QuorumBeyondRing(c: L.Config, n: nat, acts: seq<Act>)
    requires L.ValidConfig(c) && n < c.quorum && DoAll(c, Net(Init(c, n), {}), acts).Some?
    ensures DoAll(c, Net(Init(c, n), {}), acts).value.sys.leader.highestOpen == 0
    ensures DoAll(c, Net(Init(c, n), {}), acts).value.sys.leader.highestClosed == 0
  {
    hide Good, Counted, DoAll;
    InitStuck(c, n);
    StuckForever(c, Net(Init(c, n), {}), acts);
    GoodIs(c, DoAll(c, Net(Init(c, n), {}), acts).value) by { hide LeaderTrue, LeaderInv.LeaderOk; }
  }

  lemma InitStuck(c: L.Config, n: nat)
    requires L.ValidConfig(c)
    ensures Stuck(c, Net(Init(c, n), {})) && |Init(c, n).accs| == n
  {
    hide Inv;
    InitKeeps(c, n);
  }

  // ----- one silent acceptor -----

  predicate PassesBy(act: Act, k: nat) {
    act.Pass? && act.f.hop == k
  }

  ghost predicate BeforeHop(r: Net, k: nat) {
    k < |r.sys.accs| && forall f :: f in r.wire ==> f.hop <= k
  }

  lemma SilentAct(c: L.Config, r: Net, act: Act, k: nat)
    requires Good(c, r) && Sized(r.sys) && BeforeHop(r, k) && !PassesBy(act, k) && DoAct(c, r, act).Some?
    ensures BeforeHop(DoAct(c, r, act).value, k)
    ensures DoAct(c, r, act).value.sys.leader.highestClosed == r.sys.leader.highestClosed
  {
    hide Good, Inv, L.Periodic, Answer, A.Handle, LeaderTrue, LeaderInv.LeaderOk;
    GoodIs(c, r);
    match act
    case Take(bytes) => TakeKeepsAccs(c, r.sys, bytes);
    case Check(expired) => PeriodicKeeps(c, r.sys.leader, expired);
    case Learn(a, f) =>
    case Pass(f) =>
    case Return(f) => assert false;
    case Ask(inst, chosen) => AskedRecord(c, r.sys, inst);
  }

  /** While one acceptor of the ring is silent, nothing is closed, however small the quorum is. */
  lemma {:induction false} SilentAcceptorBlocks(c: L.Config, r: Net, acts: seq<Act>, k: nat)
    requires Good(c, r) && BeforeHop(r, k) && DoAll(c, r, acts).Some?
    requires forall act :: act in acts ==> !PassesBy(act, k)
    ensures DoAll(c, r, acts).value.sys.leader.highestClosed == r.sys.leader.highestClosed
    decreases |acts|
  {
    hide Good, BeforeHop, DoAct, Sized, PassesBy;
    if acts != [] {
      var r1 := DoAct(c, r, acts[0]).value;
      SilentAct(c, r, acts[0], k);
      LeadsByAct(c, r, r1, acts[0]);
      SilentAcceptorBlocks(c, r1, acts[1..], k);
    }
  }

  // ----- exactly when -----

  /** The run in which one value is submitted. */
  lemma OneValue(c: L.Config, n: nat) returns (run: seq<Sys>, steps: seq<Step>)
    requires L.ValidConfig(c)
    ensures IsRun(c, n, run, steps) && |run| == 2
    ensures run[1].submitted == [[]] && DoAll(c, Net(Init(c, n), {}), [Take([])]) == Some(Net(run[1], {}))
  {
    hide L.ValidConfig;
    InitSized(c, n);
    var s := SubmitStep(c, Init(c, n), []).value;
    run, steps := [Init(c, n), s], [Submit([])];
    OneFits(c, n);
    DoOne(c, Net(Init(c, n), {}), Take([]));
  }

  lemma InitSized(c: L.Config, n: nat)
    requires L.ValidConfig(c)
    ensures Sized(Init(c, n))
  {
  }

  lemma OneFits(c: L.Config, n: nat)
    requires L.ValidConfig(c)
    ensures Fits<Bytes>(Init(c, n).leader.queue, c.queueLength, 0)
  {
  }

  lemma OneNeverFinishes(c: L.Config, n: nat, s: Sys, r: Net)
    requires L.ValidConfig(c) && DoAll(c, Net(Init(c, n), {}), [Take([])]) == Some(Net(s, {})) && Leads(c, Net(s, {}), r)
    requires c.preexec == 1 || n < c.quorum
    ensures r.sys.leader.highestClosed == 0
  {
    hide DoAll;
    var init := Net(Init(c, n), {});
    var acts :| DoAll(c, Net(s, {}), acts) == Some(r);
    DoAllJoin(c, init, [Take([])], acts);
    if n < c.quorum {
      QuorumBeyondRing(c, n, [Take([])] + acts);
    } else {
      var start := [Init(c, n)];
      RunEnd(c, n, start, []);
      var run, steps := RouteIsRun(c, n, start, [], init, [Take([])] + acts);
      OneNeverOpens(c, n, run, steps, |run| - 1);
      RunKeeps(c, n, run, steps, |run| - 1);
      Sizes(c, r.sys);
    }
  }

  /** Every reachable state can finish everything submitted exactly when the preexecution window has at least two
      instances and the quorum is not larger than the number of acceptors on the ring. */
  lemma ProgressIff(c: L.Config, n: nat)
    requires L.ValidConfig(c)
    ensures (forall run, steps :: IsRun(c, n, run, steps) ==> CanFinish(c, run[|run| - 1]))
       <==> (c.preexec >= 2 && c.quorum <= n)
  {
    hide IsRun, DoAll, Leads, LearnersCanFinish, LearnersRecover;
    if c.preexec >= 2 && c.quorum <= n {
      forall run, steps | IsRun(c, n, run, steps)
        ensures |run| > 0 && CanFinish(c, run[|run| - 1])
      {
        RunSize(c, n, run, steps);
        EveryRunCanFinish(c, n, run, steps);
      }
    } else {
      var run, steps := OneValue(c, n);
      var s := run[1];
      if CanFinish(c, s) {
        var r :| Leads(c, Net(s, {}), r) && r.sys.submitted == s.submitted && Finished(r.sys);
        OneNeverFinishes(c, n, s, r);
        assert false;
      }
    }
  }

  lemma RunSize(c: L.Config, n: nat, run: seq<Sys>, steps: seq<Step>)
    requires IsRun(c, n, run, steps)
    ensures |run| > 0
  {
  }
}
