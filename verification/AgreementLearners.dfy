/** Learners of the many-leader system: total order of what they deliver. */
module AgreementLearners {
  import opened RingTypes
  import opened Agreement
  import opened AgreementInv
  import opened AgreementRuns
  import opened DeliverySpec

  function Broadcasts(s: Sys): set<Msg> {
    set p | p in s.net :: p.msg
  }

  ghost function ChosenKey(s: Sys, inst: nat): Key {
    if exists k :: InstKey(inst, k) in s.closed then
      var k :| InstKey(inst, k) in s.closed; k
    else
      NULL_KEY
  }

  /** What a state has decided: the key closed in each instance and the bytes broadcast for each key. */
  ghost function TruthOf(s: Sys): Truth {
    Truth((i: nat) => ChosenKey(s, i), (i: nat, k: Key) => if InstKey(i, k) in s.values then s.values[InstKey(i, k)] else [])
  }

  lemma BroadcastsAreTrue(c: Config, s: Sys, m: Msg)
    requires Majority(c) && Inv(c, s) && m in Broadcasts(s)
    ensures TrueMsg(TruthOf(s), m)
  {
    hide Votes, Records, Reports, Proposals, Leaders, Values, Chosen;
    var p :| p in s.net && p.msg == m;
    assert PacketOk(c, s, p);
    if m.Acceptance? {
      var k := ChosenKey(s, m.inst);
      assert InstKey(m.inst, m.key) in s.closed && InstKey(m.inst, k) in s.closed;
      ChosenUnique(c, s, m.inst, s.closed[InstKey(m.inst, m.key)], m.key, s.closed[InstKey(m.inst, k)], k);
    }
  }

  lemma EarlierBroadcasts(c: Config, run: seq<Sys>, steps: seq<Step>, j: nat, ms: seq<Msg>)
    requires Majority(c) && IsRun(c, run, steps) && j < |run| && forall m :: m in ms ==> m in Broadcasts(run[j])
    ensures forall m :: m in ms ==> TrueMsg(TruthOf(run[|run| - 1]), m)
  {
    hide IsRun, TruthOf, TrueMsg, Inv;
    var k := |run| - 1;
    NetOnlyGrows(c, run, steps, j, k);
    RunKeeps(c, run, steps, k);
    forall m | m in ms
      ensures TrueMsg(TruthOf(run[k]), m)
    {
      BroadcastsAreTrue(c, run[k], m);
    }
  }

  /** Total order with any number of leaders: two learners, each fed any of the messages broadcast so far in
      any order and any number of times, never fail an assertion and deliver prefix-comparable logs. */
  lemma LearnersAgree(c: Config, run: seq<Sys>, steps: seq<Step>,
                      j1: nat, size1: nat, ms1: seq<Msg>, j2: nat, size2: nat, ms2: seq<Msg>)
    requires Majority(c) && IsRun(c, run, steps) && j1 < |run| && j2 < |run| && size1 > 0 && size2 > 0
    requires forall m :: m in ms1 ==> m in Broadcasts(run[j1])
    requires forall m :: m in ms2 ==> m in Broadcasts(run[j2])
    ensures HandleAll(InitQueue(size1), ms1).Some? && HandleAll(InitQueue(size2), ms2).Some?
    ensures var log1, log2 := HandleAll(InitQueue(size1), ms1).value.log, HandleAll(InitQueue(size2), ms2).value.log;
            log1 <= log2 || log2 <= log1
  {
    hide IsRun, TruthOf, TrueMsg, HandleAll;
    EarlierBroadcasts(c, run, steps, j1, ms1);
    EarlierBroadcasts(c, run, steps, j2, ms2);
    LogsComparable(TruthOf(run[|run| - 1]), size1, ms1, size2, ms2);
  }
}
