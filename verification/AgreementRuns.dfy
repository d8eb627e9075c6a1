/** Agreement in every run of the many-leader system. */
module AgreementRuns {
  import opened RingTypes
  import opened Ballots
  import opened AcceptorSpec
  import opened AcceptorFacts
  import opened LeaderRecord
  import opened Agreement
  import opened AgreementInv
  import opened AgreementSteps
  import opened AgreementDeliver
  import opened AgreementLeaders

  lemma InitKeeps(c: Config)
    requires Majority(c)
    ensures Inv(c, InitSys(c))
  {
  }

  /** Every step keeps the invariant. */
  lemma StepKeeps(c: Config, s: Sys, s': Sys, step: Step)
    requires Majority(c) && Inv(c, s) && NextStep(c, s, s', step)
    ensures Inv(c, s')
  {
    hide Inv, DeliverStep, LearnMappingStep, OpenRangeStep, RepeatPhase1Step, CodedFinishPhase1,
      CodedFinishRange, NothingForgotten, SameBallots,
      StartPhase2Step, RepeatPhase2Step, FinishPhase2Step, RestartPhase1Step;
    match step
    case Deliver(p) => DeliverKeeps(c, s, s', p);
    case LearnMapping(acc, p) => LearnMappingKeeps(c, s, s', acc, p);
    case OpenRange(l, from, last) => OpenRangeKeeps(c, s, s', l, from, last);
    case RepeatPhase1(l, inst) => RepeatPhase1Keeps(c, s, s', l, inst);
    case FinishPhase1(l, p) =>
      if p.msg.Phase1? && p.msg.promises >= c.quorum {
        PromisedKeeps(c, s, s', l, p);
      } else {
        FinishPhase1IsPhase1(c, s, s', l, p);
        RetryPhase1Keeps(c, s, s', l, p);
      }
    case FinishRange(l, p) =>
      FinishRangeIsRange(c, s, s', l, p);
      if p.msg.promises >= c.quorum {
        FinishRangeKeeps(c, s, s', l, p);
      } else {
        FinishRangeRetry(c, s, s', l, p);
      }
    case StartPhase2(l, inst, key, bytes) => StartPhase2Keeps(c, s, s', l, inst, key, bytes);
    case RepeatPhase2(l, inst) => RepeatPhase2Keeps(c, s, s', l, inst);
    case FinishPhase2(l, p) => FinishPhase2Keeps(c, s, s', l, p);
    case RestartPhase1(l, inst, beat) => RestartPhase1Keeps(c, s, s', l, inst, beat);
  }

  lemma FinishPhase1IsPhase1(c: Config, s: Sys, s': Sys, l: nat, p: Packet)
    requires FinishPhase1Step(c, s, s', l, p)
    ensures p.msg.Phase1?
  {
  }

  lemma FinishRangeIsRange(c: Config, s: Sys, s': Sys, l: nat, p: Packet)
    requires FinishRangeStep(c, s, s', l, p)
    ensures p.msg.Phase1Range?
  {
  }

  /** The invariant holds in every state of every run. */
  lemma {:induction false} RunKeeps(c: Config, run: seq<Sys>, steps: seq<Step>, j: nat)
    requires Majority(c) && IsRun(c, run, steps) && j < |run|
    ensures Inv(c, run[j])
  {
    hide Inv, NextStep;
    if j == 0 {
      InitKeeps(c);
    } else {
      RunKeeps(c, run, steps, j - 1);
      StepKeeps(c, run[j - 1], run[j], steps[j - 1]);
    }
  }

  lemma NetGrows(c: Config, s: Sys, s': Sys, step: Step)
    requires NextStep(c, s, s', step)
    ensures s.net <= s'.net
  {
    hide Handle, HandleCmdMap, OnPhase1, OnPhase2, FirstBallot, RaiseBallot, Owner, Seq;
  }

  lemma {:induction false} NetOnlyGrows(c: Config, run: seq<Sys>, steps: seq<Step>, i: nat, j: nat)
    requires IsRun(c, run, steps) && i <= j < |run|
    ensures run[i].net <= run[j].net
    decreases j
  {
    hide NextStep;
    if i < j {
      NetOnlyGrows(c, run, steps, i, j - 1);
      NetGrows(c, run[j - 1], run[j], steps[j - 1]);
    }
  }

  /** Agreement: in any run with any number of leaders, acceptances broadcast for one instance name one key. */
  lemma AgreementInRuns(c: Config, run: seq<Sys>, steps: seq<Step>, i: nat, p1: Packet, j: nat, p2: Packet)
    requires Majority(c) && IsRun(c, run, steps) && i < |run| && j < |run|
    requires p1 in run[i].net && p2 in run[j].net
    requires p1.msg.Acceptance? && p2.msg.Acceptance? && p1.msg.inst == p2.msg.inst
    ensures p1.msg.key == p2.msg.key
  {
    hide Inv, NextStep;
    var k := |run| - 1;
    NetOnlyGrows(c, run, steps, i, k);
    NetOnlyGrows(c, run, steps, j, k);
    RunKeeps(c, run, steps, k);
    AcceptancesAgree(c, run[k], p1, p2);
  }

  /** The counters of every message in flight are true: a phase 1 message counts the distinct acceptors it
      passed that promised its ballot (a range message: in every instance of the range), a phase 2 message counts
      its hops, and all of them accepted it. */
  lemma CountersAreTrue(c: Config, run: seq<Sys>, steps: seq<Step>, j: nat, p: Packet)
    requires Majority(c) && IsRun(c, run, steps) && j < |run| && p in run[j].net
    ensures p.msg.Phase1? ==>
      && p.msg.promises == |p.passed|
      && forall a :: a in p.passed ==>
           && a < p.hop && a < |run[j].accs| && |run[j].accs[a].slots| > 0
           && AtLeast(run[j].accs[a], p.msg.inst, p.msg.ballot)
    ensures p.msg.Phase1Range? ==>
      && p.msg.promises == |p.passed|
      && forall a, i :: a in p.passed && p.msg.from <= i <= p.msg.to ==>
           && a < p.hop && a < |run[j].accs| && |run[j].accs[a].slots| > 0
           && AtLeast(run[j].accs[a], i, p.msg.ballot)
    ensures p.msg.Phase2? ==>
      p.msg.accepts == p.hop && forall a :: 0 <= a < p.hop ==> Voted(run[j], a, At(p.msg.inst, p.msg.ballot), p.msg.key)
    ensures p.msg.Acceptance? ==>
      exists b :: Chosen(c, run[j], At(p.msg.inst, b), p.msg.key)
  {
    RunKeeps(c, run, steps, j);
    CountersInState(c, run[j], p);
  }

  lemma CountersInState(c: Config, s: Sys, p: Packet)
    requires Inv(c, s) && p in s.net
    ensures p.msg.Phase1? ==>
      && p.msg.promises == |p.passed|
      && forall a :: a in p.passed ==>
           && a < p.hop && a < |s.accs| && |s.accs[a].slots| > 0
           && AtLeast(s.accs[a], p.msg.inst, p.msg.ballot)
    ensures p.msg.Phase1Range? ==>
      && p.msg.promises == |p.passed|
      && forall a, i :: a in p.passed && p.msg.from <= i <= p.msg.to ==>
           && a < p.hop && a < |s.accs| && |s.accs[a].slots| > 0
           && AtLeast(s.accs[a], i, p.msg.ballot)
    ensures p.msg.Phase2? ==>
      p.msg.accepts == p.hop && forall a :: 0 <= a < p.hop ==> Voted(s, a, At(p.msg.inst, p.msg.ballot), p.msg.key)
    ensures p.msg.Acceptance? ==> exists b :: Chosen(c, s, At(p.msg.inst, b), p.msg.key)
  {
    hide Votes, Records, Reports, Proposals, Leaders, Values, AcceptorInv, Owner, FirstBallot, Chosen;
    assert PacketOk(c, s, p);
    if p.msg.Phase1Range? {
      forall a, i | a in p.passed && p.msg.from <= i <= p.msg.to
        ensures a < p.hop && a < |s.accs| && |s.accs[a].slots| > 0 && AtLeast(s.accs[a], i, p.msg.ballot)
      {
        assert ReportOk(c, s, At(i, p.msg.ballot), p.passed, 0, NULL_KEY);
      }
    }
    if p.msg.Acceptance? {
      var ik := InstKey(p.msg.inst, p.msg.key);
      assert Chosen(c, s, At(ik.inst, s.closed[ik]), ik.key);
    }
  }
}
