/** The two leader branches that break agreement: each keeps the invariant exactly when a guard holds that the
    leader could check, and so does a whole run of the program. */
module AgreementGuards {
  import opened RingTypes
  import opened Ballots
  import opened AcceptorFacts
  import opened LeaderRecord
  import opened Agreement
  import opened AgreementInv
  import opened AgreementLeaders
  import opened AgreementRuns
  import opened Disagreement

  /** Ending phase 1 on one message keeps the invariant exactly when too few acceptors promised, none reported an
      accepted command, or the leader has a command assigned: the guard of the branch that forgets the report. */
  lemma FinishPhase1Exactly(c: Config, s: Sys, s': Sys, l: nat, p: Packet)
    requires Majority(c) && Inv(c, s) && CodedFinishPhase1(c, s, s', l, p)
    ensures Inv(c, s') <==>
      || p.msg.promises < c.quorum || p.msg.highestAccepted == 0
      || s.leaders[Own(l, p.msg.inst)].value.Some?
  {
    hide Inv, OnPhase1, Owner, Seq, FirstBallot;
    if NothingForgotten(c, s, l, p) {
      StepKeeps(c, s, s', FinishPhase1(l, p));
    } else {
      ForgettingBreaks(c, s, s', l, p);
    }
  }

  lemma ForgettingBreaks(c: Config, s: Sys, s': Sys, l: nat, p: Packet)
    requires CodedFinishPhase1(c, s, s', l, p) && !NothingForgotten(c, s, l, p)
    ensures !Inv(c, s')
  {
    hide Acceptors, Votes, Records, Packets, Reports, Proposals, Values, Closed, Owner, Seq, FirstBallot;
    var o := Own(l, p.msg.inst);
    assert s'.leaders[o].status == P1Done;
    assert !LeaderOk(s', o, s'.leaders[o]);
  }

  /** Ending phase 1 on a range message keeps the invariant exactly when too few acceptors promised or every record
      of the range still has the ballot of the message. */
  lemma FinishRangeExactly(c: Config, s: Sys, s': Sys, l: nat, p: Packet)
    requires Majority(c) && Inv(c, s) && CodedFinishRange(c, s, s', l, p)
    ensures Inv(c, s') <==>
      p.msg.promises < c.quorum || forall i :: p.msg.from <= i <= p.msg.to ==> s.leaders[Own(l, i)].ballot == p.msg.ballot
  {
    if SameBallots(c, s, l, p) {
      StepKeeps(c, s, s', FinishRange(l, p)) by { hide Inv, CodedFinishRange; }
    } else {
      var i :| p.msg.from <= i <= p.msg.to && s.leaders[Own(l, i)].ballot != p.msg.ballot;
      LateAnswerBreaks(c, s, s', l, p, i);
    }
  }

  /** The record would count as promised at a ballot for which no phase 1 ever ended. */
  lemma LateAnswerBreaks(c: Config, s: Sys, s': Sys, l: nat, p: Packet, i: nat)
    requires Inv(c, s) && CodedFinishRange(c, s, s', l, p) && p.msg.promises >= c.quorum
    requires p.msg.from <= i <= p.msg.to && s.leaders[Own(l, i)].ballot != p.msg.ballot
    ensures !Inv(c, s')
  {
    hide Acceptors, Votes, Records, Packets, Reports, Proposals, Values, Closed, Owner, FirstBallot;
    var o := Own(l, i);
    var at := At(i, s.leaders[o].ballot);
    assert LeaderOk(s, o, s.leaders[o]);
    assert s'.leaders[o] == s.leaders[o].(status := P1Done);
    assert at !in s'.reports;
    assert !LeaderOk(s', o, s'.leaders[o]);
  }

  /** A run of the program keeps the invariant in all its states exactly when no step of it takes either branch
      with its guard false. */
  lemma {:induction false} CodedRunExactly(c: Config, run: seq<Sys>, steps: seq<Step>)
    requires Majority(c) && IsCodedRun(c, run, steps)
    ensures (forall j :: 0 <= j < |run| ==> Inv(c, run[j])) <==> forall j :: 0 <= j < |steps| ==> Guarded(c, run[j], steps[j])
    decreases |steps|
  {
    hide Inv, CodedStep, Guarded;
    if steps == [] {
      InitKeeps(c);
    } else {
      var k := |steps| - 1;
      CodedRunExactly(c, run[..k + 1], steps[..k]);
      assert forall j :: 0 <= j < k ==> run[..k + 1][j] == run[j] && steps[..k][j] == steps[j];
      if Inv(c, run[k]) {
        StepExactly(c, run[k], run[k + 1], steps[k]);
      } else {
        assert run[..k + 1][k] == run[k];
      }
    }
  }

  lemma StepExactly(c: Config, s: Sys, s': Sys, step: Step)
    requires Majority(c) && Inv(c, s) && CodedStep(c, s, s', step)
    ensures Inv(c, s') <==> Guarded(c, s, step)
  {
    hide Inv, DeliverStep, LearnMappingStep, OpenRangeStep, RepeatPhase1Step, CodedFinishPhase1, CodedFinishRange,
      StartPhase2Step, RepeatPhase2Step, FinishPhase2Step, RestartPhase1Step, NothingForgotten, SameBallots;
    if Guarded(c, s, step) {
      StepKeeps(c, s, s', step);
    } else if step.FinishPhase1? {
      ForgettingBreaks(c, s, s', step.l, step.p);
    } else {
      RangeBreaks(c, s, s', step.l, step.p);
    }
  }

  lemma RangeBreaks(c: Config, s: Sys, s': Sys, l: nat, p: Packet)
    requires Majority(c) && Inv(c, s) && CodedFinishRange(c, s, s', l, p) && !SameBallots(c, s, l, p)
    ensures !Inv(c, s')
  {
    hide Inv;
    FinishRangeExactly(c, s, s', l, p);
  }

  /** Agreement for the program as coded: as long as the leaders' two guards held along the run, acceptances
      broadcast for one instance name one key. */
  lemma AgreementWhileGuarded(c: Config, run: seq<Sys>, steps: seq<Step>, i: nat, p1: Packet, j: nat, p2: Packet)
    requires Majority(c) && IsCodedRun(c, run, steps) && forall k :: 0 <= k < |steps| ==> Guarded(c, run[k], steps[k])
    requires i < |run| && j < |run| && p1 in run[i].net && p2 in run[j].net
    requires p1.msg.Acceptance? && p2.msg.Acceptance? && p1.msg.inst == p2.msg.inst
    ensures p1.msg.key == p2.msg.key
  {
    hide CodedStep, Guarded;
    AgreementInRuns(c, run, steps, i, p1, j, p2);
  }

  // ----- agreement needs both guards -----

  /** The guard of the forgetting branch (of the range branch) held along the run, if it is asked for. */
  ghost predicate Kept(c: Config, run: seq<Sys>, steps: seq<Step>, forgetting: bool, range: bool)
    requires |run| == |steps| + 1
  {
    && (forgetting ==> forall j :: 0 <= j < |steps| ==> steps[j].FinishPhase1? ==> Guarded(c, run[j], steps[j]))
    && (range ==> forall j :: 0 <= j < |steps| ==> steps[j].FinishRange? ==> Guarded(c, run[j], steps[j]))
  }

  /** Acceptances broadcast for one instance name one key. */
  ghost predicate Agrees(s: Sys) {
    forall p1, p2 :: p1 in s.net && p2 in s.net && p1.msg.Acceptance? && p2.msg.Acceptance? && p1.msg.inst == p2.msg.inst ==>
      p1.msg.key == p2.msg.key
  }

  ghost predicate AgreesIfKept(c: Config, run: seq<Sys>, steps: seq<Step>, forgetting: bool, range: bool) {
    IsCodedRun(c, run, steps) && Kept(c, run, steps, forgetting, range) ==> Agrees(run[|steps|])
  }

  /** All runs of the program that keep the guards asked for agree exactly when both guards are asked for: for every
      majority configuration agreement holds with the two and fails with either alone. */
  lemma AgreementIff(c: Config, forgetting: bool, range: bool)
    requires Majority(c)
    ensures (forall run, steps :: AgreesIfKept(c, run, steps, forgetting, range)) <==> (forgetting && range)
  {
    hide CodedStep, Guarded, Takes;
    if forgetting && range {
      forall run, steps
        ensures AgreesIfKept(c, run, steps, forgetting, range)
      {
        if IsCodedRun(c, run, steps) && Kept(c, run, steps, forgetting, range) {
          BothKeptAgrees(c, run, steps);
        }
      }
    } else {
      var run, steps := OneNotKept(c, forgetting, range);
      assert !AgreesIfKept(c, run, steps, forgetting, range);
    }
  }

  lemma BothKeptAgrees(c: Config, run: seq<Sys>, steps: seq<Step>)
    requires Majority(c) && IsCodedRun(c, run, steps) && Kept(c, run, steps, true, true)
    ensures Agrees(run[|steps|])
  {
    forall k | 0 <= k < |steps|
      ensures Guarded(c, run[k], steps[k])
    {
      OtherStepsGuarded(c, run[k], steps[k]);
    }
    hide CodedStep, Guarded;
    var s := run[|steps|];
    forall p1, p2 | p1 in s.net && p2 in s.net && p1.msg.Acceptance? && p2.msg.Acceptance? && p1.msg.inst == p2.msg.inst
      ensures p1.msg.key == p2.msg.key
    {
      AgreementWhileGuarded(c, run, steps, |steps|, p1, |steps|, p2);
    }
  }

  lemma OtherStepsGuarded(c: Config, s: Sys, step: Step)
    ensures !step.FinishPhase1? && !step.FinishRange? ==> Guarded(c, s, step)
  {
  }

  lemma OneNotKept(c: Config, forgetting: bool, range: bool) returns (run: seq<Sys>, steps: seq<Step>)
    requires Majority(c) && !(forgetting && range)
    ensures IsCodedRun(c, run, steps) && Kept(c, run, steps, forgetting, range) && !Agrees(run[|steps|])
  {
    hide CodedStep, Guarded;
    var k1, k2 := Key(0, 1, 1), Key(0, 2, 1);
    var p1, p2;
    if forgetting {
      run, steps, p1, p2 := StaleRange(c, 1, k1, [], 2, k2, []);
    } else {
      run, steps, p1, p2 := ForgottenReport(c, 1, k1, [], 2, k2, []);
    }
  }
}
