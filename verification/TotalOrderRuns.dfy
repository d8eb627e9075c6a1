/** What holds in every run of the single-leader system. */
module TotalOrderRuns {
  import opened RingTypes
  import opened DequeSpec
  import opened LeaderInv
  import opened LeaderTruth
  import opened AcceptorTruth
  import opened DeliverySpec
  import opened TotalOrder
  import L = LeaderSpec
  import A = AcceptorSpec
  import F = AcceptorFacts

  predicate Sized(s: Sys) {
    |s.leader.slots| > 0 && forall a :: 0 <= a < |s.accs| ==> |s.accs[a].slots| > 0
  }

  predicate Next(c: L.Config, s: Sys, s': Sys, step: Step) {
    Sized(s) && Do(c, s, step) == Some(s')
  }

  ghost predicate IsRun(c: L.Config, n: nat, run: seq<Sys>, steps: seq<Step>) {
    && L.ValidConfig(c) && |run| == |steps| + 1 && run[0] == Init(c, n)
    && forall j :: 0 <= j < |steps| ==> Next(c, run[j], run[j + 1], steps[j])
  }

  /** Every step keeps the invariant and lets histories and bounds only grow. */
  lemma StepKeeps(c: L.Config, s: Sys, s': Sys, step: Step)
    requires Inv(c, s) && Next(c, s, s', step)
    ensures Inv(c, s') && Grown(s, s')
  {
    hide Inv, Grown, SubmitStep, OpenPhase2Step, LeaderStep, AcceptorStep, After, L.OpenPhase1, L.CheckExpired,
      L.HandleMapRequest, L.HandleChosenRequest, Askable;
    match step
    case Submit(bytes) => SubmitIsDone(c, s, bytes); SubmitKeeps(c, s, bytes);
    case OpenPhase1 => OpenPhase1StepKeeps(c, s);
    case OpenPhase2 => OpenPhase2StepKeeps(c, s);
    case Timeouts(expired) => TimeoutsKeep(c, s, expired);
    case ToLeader(m) => LeaderStepKeeps(c, s, m);
    case AskMapping(inst, repeat) => AskKeeps(c, s, inst, repeat); AfterSome(s, L.HandleMapRequest(s.leader, inst, repeat));
    case AskChosen(inst) => AskKeeps(c, s, inst, true); AfterSome(s, L.HandleChosenRequest(s.leader, inst));
    case ToAcceptor(a, m) => AcceptorStepKeeps(c, s, a, m);
  }

  lemma SubmitIsDone(c: L.Config, s: Sys, bytes: Bytes)
    ensures SubmitStep(c, s, bytes).Some?
  {
  }

  lemma AfterSome(s: Sys, r: Option<(L.Leader, seq<Msg>)>)
    ensures After(s, r).Some? <==> r.Some?
  {
  }

  lemma {:induction false} RunKeeps(c: L.Config, n: nat, run: seq<Sys>, steps: seq<Step>, j: nat)
    requires IsRun(c, n, run, steps) && j < |run|
    ensures Inv(c, run[j])
  {
    hide Inv, Next;
    if j == 0 {
      InitKeeps(c, n);
    } else {
      RunKeeps(c, n, run, steps, j - 1);
      StepKeeps(c, run[j - 1], run[j], steps[j - 1]);
    }
  }

  lemma {:induction false} RunGrows(c: L.Config, n: nat, run: seq<Sys>, steps: seq<Step>, i: nat, j: nat)
    requires IsRun(c, n, run, steps) && i <= j < |run|
    ensures Grown(run[i], run[j])
    decreases j
  {
    hide Inv, Next;
    if i < j {
      RunGrows(c, n, run, steps, i, j - 1);
      RunKeeps(c, n, run, steps, j - 1);
      StepKeeps(c, run[j - 1], run[j], steps[j - 1]);
    }
  }

  // ----- conservation -----

  function BytesGiven(given: seq<Mapping>): seq<Bytes> {
    seq(|given|, j requires 0 <= j < |given| => given[j].bytes)
  }

  function Waiting(q: seq<Elem<Bytes>>): seq<Bytes> {
    seq(|q|, j requires 0 <= j < |q| => q[j].data)
  }

  /** At every moment of every run, the values assigned to instances 1..open followed by the values still queued
      are exactly the values the queue ever took in, in that order; and an assignment is for ever. */
  lemma Conservation(c: L.Config, n: nat, run: seq<Sys>, steps: seq<Step>, i: nat, j: nat)
    requires IsRun(c, n, run, steps) && i <= j < |run|
    ensures |run[j].given| == run[j].leader.highestOpen
    ensures BytesGiven(run[j].given) + Waiting(run[j].leader.queue) == run[j].submitted
    ensures run[i].given <= run[j].given && run[i].submitted <= run[j].submitted
  {
    hide LeaderInv.LeaderOk, RecTrue, NetTrue, AccsTrue, Next;
    RunKeeps(c, n, run, steps, j);
    RunGrows(c, n, run, steps, i, j);
  }

  /** In every run, two instances have the same key exactly when the 16-bit counter went round in between: keys
      are unique within one instance, not over the run. */
  lemma KeysInRuns(c: L.Config, n: nat, run: seq<Sys>, steps: seq<Step>, j: nat, a: nat, b: nat)
    requires IsRun(c, n, run, steps) && j < |run| && a <= b < |run[j].given|
    ensures run[j].given[a].key == run[j].given[b].key <==> (b - a) % KEY_PERIOD == 0
  {
    hide LeaderInv.LeaderOk, RecTrue, NetTrue, AccsTrue, Next, Conserved, KeyAt, SeqAt;
    RunKeeps(c, n, run, steps, j);
    KeysRepeat(c, a, b);
  }

  // ----- the leader's window -----

  /** In every reachable state the window, the status bands and the longest closed prefix are as designed, and
      every record of an open instance is at the leader's first ballot. */
  lemma WindowInRuns(c: L.Config, n: nat, run: seq<Sys>, steps: seq<Step>, j: nat)
    requires IsRun(c, n, run, steps) && j < |run|
    ensures LeaderOk(c, run[j].leader)
    ensures run[j].leader.p1HighestOpen < run[j].leader.highestClosed + c.workingSet
    ensures forall k :: 0 <= k < |run[j].leader.slots| ==>
      0 < run[j].leader.slots[k].inst <= run[j].leader.p1HighestOpen ==> run[j].leader.slots[k].ballot == FirstBallot(c)
  {
    hide LeaderInv.LeaderOk, NetTrue, AccsTrue, Next, Conserved, FirstBallot;
    RunKeeps(c, n, run, steps, j);
    Sizes(c, run[j]);
  }

  /** Opening instances, timeouts and answers to phase 1 and phase 2 never fail an assertion of the leader. */
  lemma LeaderNeverAborts(c: L.Config, n: nat, run: seq<Sys>, steps: seq<Step>, j: nat, expired: set<nat>, m: Msg)
    requires IsRun(c, n, run, steps) && j < |run| && m in run[j].net && !m.Phase1Range?
    ensures Sized(run[j]) && Do(c, run[j], OpenPhase1).Some? && Do(c, run[j], OpenPhase2).Some?
    ensures Do(c, run[j], Timeouts(expired)).Some? && Do(c, run[j], ToLeader(m)).Some?
  {
    hide Next, Inv, SubmitStep, OpenPhase2Step, LeaderStep, AcceptorStep, After, L.OpenPhase1, L.CheckExpired;
    var s := run[j];
    RunKeeps(c, n, run, steps, j);
    Sizes(c, s);
    OpenPhase1StepKeeps(c, s);
    AfterSome(s, L.OpenPhase1(c, s.leader));
    OpenPhase2StepKeeps(c, s);
    TimeoutsKeep(c, s, expired);
    AfterSome(s, L.CheckExpired(s.leader, s.leader.highestClosed + 1, L.Highest(s.leader), expired));
    LeaderStepKeeps(c, s, m);
  }

  // ----- acceptor slots -----

  /** No acceptor ever loses the record of an instance that is not closed at the leader: what it promised and
      accepted for the instance at an earlier moment i of the run it still remembers at moment j. */
  lemma UnfinishedKept(c: L.Config, n: nat, run: seq<Sys>, steps: seq<Step>, i: nat, j: nat, a: nat, inst: nat)
    requires IsRun(c, n, run, steps) && i <= j < |run| && a < n && run[j].leader.highestClosed < inst
    ensures |run[i].accs| == |run[j].accs| == n && |run[i].accs[a].slots| > 0 && |run[j].accs[a].slots| > 0
    ensures !A.Gone(run[j].accs[a], inst)
    ensures A.RecordOf(run[i].accs[a], inst).ballot <= A.RecordOf(run[j].accs[a], inst).ballot
    ensures A.RecordOf(run[i].accs[a], inst).acceptBallot <= A.RecordOf(run[j].accs[a], inst).acceptBallot
  {
    hide Next, Inv, A.Gone, A.RecordOf;
    AccsGrow(c, n, run, steps, i, j, a);
    RunKeeps(c, n, run, steps, j);
    Sizes(c, run[j]);
    assert F.Grows(run[i].accs[a], run[j].accs[a], inst);
    UnfinishedNotGone(c, run[j].given, run[j].leader.p1HighestOpen, run[j].accs[a], run[j].leader.highestClosed, inst) by {
      AccIsTrue(c, run[j], a);
    }
  }

  lemma LeaderIs(c: L.Config, s: Sys)
    requires Inv(c, s)
    ensures LeaderTrue(c, s.given, s.leader) && LeaderOk(c, s.leader)
  {
  }

  lemma AccIsTrue(c: L.Config, s: Sys, a: nat)
    requires Inv(c, s) && a < |s.accs|
    ensures AccTrue(c, s.given, s.leader.p1HighestOpen, s.accs[a])
  {
  }

  lemma {:induction false} AccsGrow(c: L.Config, n: nat, run: seq<Sys>, steps: seq<Step>, i: nat, j: nat, a: nat)
    requires IsRun(c, n, run, steps) && i <= j < |run| && a < n
    ensures |run[i].accs| == |run[j].accs| == n && F.Extends(run[i].accs[a], run[j].accs[a])
    decreases j
  {
    hide Next, Inv, F.Extends;
    RunGrows(c, n, run, steps, 0, i);
    RunGrows(c, n, run, steps, 0, j);
    if i == j {
      RunKeeps(c, n, run, steps, j);
      Sizes(c, run[j]);
      F.ExtendsReflexive(run[j].accs[a]);
    } else {
      AccsGrow(c, n, run, steps, i, j - 1, a);
      RunKeeps(c, n, run, steps, j - 1);
      AccStepGrows(c, run[j - 1], run[j], steps[j - 1], a);
      F.ExtendsTransitive(run[i].accs[a], run[j - 1].accs[a], run[j].accs[a]);
    }
  }

  lemma AccStepGrows(c: L.Config, s: Sys, s': Sys, step: Step, a: nat)
    requires Inv(c, s) && Next(c, s, s', step) && a < |s.accs|
    ensures |s'.accs| == |s.accs| && F.Extends(s.accs[a], s'.accs[a])
  {
    hide Inv, F.Extends, A.Handle, L.OpenPhase1, L.OpenPhase2, L.CheckExpired, L.HandlePhase1, L.HandlePhase1Range,
      L.HandlePhase2, L.HandleMapRequest, L.HandleChosenRequest, L.Submit;
    Sizes(c, s);
    F.ExtendsReflexive(s.accs[a]);
    if step.ToAcceptor? && step.a == a {
      TrueIsWellFormed(c, s, a, step.m);
      F.HandleKeeps(s.accs[a], step.m);
    }
  }

  lemma TrueIsWellFormed(c: L.Config, s: Sys, a: nat, m: Msg)
    requires Inv(c, s) && m in s.net && a < |s.accs|
    ensures F.WellFormed(m) && F.AcceptorInv(s.accs[a])
  {
    hide LeaderTrue, FirstBallot, Conserved;
    HistoryKeys(c, s);
    AccSize(c, s.given, s.leader.p1HighestOpen, s.accs[a]);
    assert MsgTrue(c, s.given, s.leader.p1HighestOpen, m);
  }

  /** An acceptor can always act on a message about instances that are not closed. */
  lemma AcceptorsServeUnfinished(c: L.Config, n: nat, run: seq<Sys>, steps: seq<Step>, j: nat, a: nat, m: Msg)
    requires IsRun(c, n, run, steps) && j < |run| && a < |run[j].accs| && m in run[j].net
    requires forall i: nat :: Concerns(m, i) ==> i > run[j].leader.highestClosed
    ensures Sized(run[j]) && Do(c, run[j], ToAcceptor(a, m)).Some?
  {
    hide Next, Inv, A.Gone, Concerns, AcceptorStep;
    var s := run[j];
    RunKeeps(c, n, run, steps, j);
    Sizes(c, s);
    AcceptorStepKeeps(c, s, a, m);
    AccIsTrue(c, s, a);
    forall i: nat | i > s.leader.highestClosed
      ensures !A.Gone(s.accs[a], i)
    {
      UnfinishedNotGone(c, s.given, s.leader.p1HighestOpen, s.accs[a], s.leader.highestClosed, i);
    }
  }

  // ----- learners -----

  function TruthOf(given: seq<Mapping>): Truth {
    Truth((i: nat) => if 0 < i <= |given| then given[i - 1].key else NULL_KEY,
          (i: nat, k: Key) => if 0 < i <= |given| && given[i - 1].key == k then given[i - 1].bytes else [])
  }

  ghost predicate Below(q: Queue, n: nat) {
    q.delivered <= n && forall i :: i in q.know ==> i <= n
  }

  lemma DeliverBelow(q: Queue, n: nat)
    requires Shape(q) && Below(q, n)
    ensures Below(DeliverLoop(q), n)
  {
    hide DeliverLoop;
    DeliverLoopRun(q);
    if DeliverLoop(q).delivered > q.delivered {
      assert DeliverLoop(q).delivered in q.know;
    }
  }

  lemma HandleBelow(t: Truth, q: Queue, m: Msg, n: nat)
    requires TrueQueue(t, q) && QueueInv(q) && TrueMsg(t, m) && Below(q, n)
    requires (m.CmdMap? || m.Acceptance? ==> m.inst <= n)
    ensures HandleMsg(q, m).Some? && Below(HandleMsg(q, m).value, n)
  {
    hide DeliverLoop;
    DeliverySpec.HandleTrue(t, q, m);
    if (m.CmdMap? || m.Acceptance?) && InWindow(q, m.inst) {
      var bytes := if m.CmdMap? then m.bytes
                   else if m.inst in q.know && q.know[m.inst].Mapped? then q.know[m.inst].bytes
                   else [];
      DeliverBelow(q.(know := q.know[m.inst := Deliverable(m.key, bytes)]), n);
    }
  }

  lemma {:induction false} LearnerBelow(t: Truth, size: nat, ms: seq<Msg>, n: nat)
    requires size > 0
    requires forall m :: m in ms ==> TrueMsg(t, m) && (m.CmdMap? || m.Acceptance? ==> m.inst <= n)
    ensures HandleAll(InitQueue(size), ms).Some? && Below(HandleAll(InitQueue(size), ms).value, n)
  {
    if ms != [] {
      hide HandleMsg, TrueMsg, TrueQueue, QueueInv;
      var before := ms[..|ms| - 1];
      LogIsChosen(t, size, before);
      LearnerBelow(t, size, before, n);
      HandleBelow(t, HandleAll(InitQueue(size), before).value, ms[|ms| - 1], n);
    }
  }

  lemma LearnerOfState(c: L.Config, s: Sys, size: nat, ms: seq<Msg>)
    requires Inv(c, s) && size > 0 && forall m :: m in ms ==> m in s.net
    ensures HandleAll(InitQueue(size), ms).Some?
    ensures HandleAll(InitQueue(size), ms).value.log <= BytesGiven(s.given)
  {
    hide LeaderTrue, AccsTrue, Conserved, HandleAll, FirstBallot;
    var t := TruthOf(s.given);
    forall m | m in ms
      ensures TrueMsg(t, m) && (m.CmdMap? || m.Acceptance? ==> m.inst <= |s.given|)
    {
      assert MsgTrue(c, s.given, s.leader.p1HighestOpen, m);
    }
    LogIsChosen(t, size, ms);
    LearnerBelow(t, size, ms, |s.given|);
    var log := HandleAll(InitQueue(size), ms).value.log;
    forall j | 0 <= j < |log|
      ensures log[j] == s.given[j].bytes
    {
      assert log[j] == t.bytes(j + 1, t.chosen(j + 1));
    }
  }

  /** Total order: a learner that was handed any messages sent by moment i, in any order and any number of
      times, fails no assertion, and what it delivered is a prefix of the values submitted by any later moment. */
  lemma LogIsPrefixOfSubmitted(c: L.Config, n: nat, run: seq<Sys>, steps: seq<Step>, i: nat, j: nat, size: nat, ms: seq<Msg>)
    requires IsRun(c, n, run, steps) && i <= j < |run| && size > 0 && forall m :: m in ms ==> m in run[i].net
    ensures HandleAll(InitQueue(size), ms).Some?
    ensures HandleAll(InitQueue(size), ms).value.log <= run[j].submitted
  {
    hide Next, Inv, HandleAll;
    RunKeeps(c, n, run, steps, i);
    LearnerOfState(c, run[i], size, ms);
    Conservation(c, n, run, steps, i, i);
    RunGrows(c, n, run, steps, i, j);
    PrefixOf(HandleAll(InitQueue(size), ms).value.log, BytesGiven(run[i].given), Waiting(run[i].leader.queue), run[j].submitted);
  }

  lemma PrefixOf<T>(a: seq<T>, b: seq<T>, rest: seq<T>, d: seq<T>)
    requires a <= b && b + rest <= d
    ensures a <= d
  {
    assert b == (b + rest)[..|b|] == d[..|b|];
  }

  /** Two learners, whatever messages each got from moments i1 and i2 of the run: one log is a prefix of the other. */
  lemma LearnersComparable(c: L.Config, n: nat, run: seq<Sys>, steps: seq<Step>,
                           i1: nat, size1: nat, ms1: seq<Msg>, i2: nat, size2: nat, ms2: seq<Msg>)
    requires IsRun(c, n, run, steps) && i1 < |run| && i2 < |run| && size1 > 0 && size2 > 0
    requires forall m :: m in ms1 ==> m in run[i1].net
    requires forall m :: m in ms2 ==> m in run[i2].net
    ensures HandleAll(InitQueue(size1), ms1).Some? && HandleAll(InitQueue(size2), ms2).Some?
    ensures var log1, log2 := HandleAll(InitQueue(size1), ms1).value.log, HandleAll(InitQueue(size2), ms2).value.log;
            log1 <= log2 || log2 <= log1
  {
    hide Next, HandleAll;
    LogIsPrefixOfSubmitted(c, n, run, steps, i1, |run| - 1, size1, ms1);
    LogIsPrefixOfSubmitted(c, n, run, steps, i2, |run| - 1, size2, ms2);
  }
}
