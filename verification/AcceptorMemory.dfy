/** When the acceptor's memory is safe: over any run with one leader, and the shortest way to a double free. */
module AcceptorMemory {
  import opened RingTypes
  import opened AcceptorSpec
  import opened AcceptorFacts
  import opened AcceptorStore
  import opened AcceptorTruth
  import opened RingAcceptors
  import L = LeaderSpec
  import T = LeaderTruth
  import S = TotalOrder
  import R = TotalOrderRuns

  /** With one leader no record ever holds a second command. */
  lemma OneLeaderOneCommand(c: L.Config, given: seq<Mapping>, opened1: nat, a: Acceptor, k: nat)
    requires AccTrue(c, given, opened1, a) && k < |a.slots|
    ensures a.slots[k].accepted.None? || a.slots[k].proposed.None?
  {
    hide T.FirstBallot;
    assert RecordTrue(c, given, opened1, a.slots[k]) && RecOk(a.slots[k], a.highestSeen);
  }

  /** So edge A8, the one that leaves a record stale, is never taken, ... */
  lemma OneLeaderNeverReplaces(c: L.Config, given: seq<Mapping>, opened1: nat, a: Acceptor, m: Msg)
    requires AccTrue(c, given, opened1, a) && m.Phase2?
    ensures |a.slots| > 0 && !Replaces(RecordOf(a, m.inst), m)
  {
    hide T.FirstBallot;
    AccSize(c, given, opened1, a);
    OneLeaderOneCommand(c, given, opened1, a, m.inst % |a.slots|);
  }

  /** ... and an acceptor that has no stale record and lost no buffer has no buffer allocated at all. */
  lemma OneLeaderNoBuffers(c: L.Config, given: seq<Mapping>, opened1: nat,
                           rs: seq<CRec>, cs: seq<Bytes>, h: Memory, next: nat, seen: nat)
    requires StoreValid(rs, cs, h, next) && AccTrue(c, given, opened1, Acceptor(AbsAll(rs, cs, h), seen))
    requires StaleSlots(rs, h) == {} && Lost(rs, h) == {}
    ensures h == map[] && forall k :: 0 <= k < |rs| ==> !rs[k].proposed.Heap?
  {
    hide AccTrue;
    var a := Acceptor(AbsAll(rs, cs, h), seen);
    forall k | 0 <= k < |rs|
      ensures !rs[k].proposed.Heap?
    {
      OneLeaderOneCommand(c, given, opened1, a, k);
      assert RecValid(rs[k], cs[k], h, next);
      assert a.slots[k] == AbsRec(rs[k], cs[k], h);
      assert k !in StaleSlots(rs, h);
    }
    assert Owned(rs) == {};
    assert h.Keys - Owned(rs) == h.Keys;
  }

  /** No buffer is allocated, lost or pointed to after it was freed. */
  ghost predicate Tidy(acc: RingAcceptor)
    reads acc, acc.records
  {
    acc.heap == map[] && acc.StaleNow() == {} && acc.LostNow() == {}
  }

  /** One message of a system with one leader: no fault, no buffer allocated or lost, and everything held is what
      the leader assigned. An abort is that of the specification: the slot of an instance was reused. */
  method Serve(acc: RingAcceptor, m: Msg, ghost c: L.Config, ghost given: seq<Mapping>, ghost opened1: nat)
    returns (outcome: Outcome)
    requires acc.Valid() && Tidy(acc) && AccTrue(c, given, opened1, acc.Abs()) && T.MsgTrue(c, given, opened1, m)
    requires |given| <= opened1 && c.id > 0 && T.FirstBallot(c) > 0
    requires forall j :: 0 <= j < |given| ==> given[j].key.mcaster == c.id
    modifies acc, acc.records, acc.commands
    ensures outcome != Fault && (outcome == Abort <==> Handle(old(acc.Abs()), m).None?)
    ensures outcome == Done ==>
      && acc.Valid() && Tidy(acc) && AccTrue(c, given, opened1, acc.Abs())
      && acc.Abs() == Handle(old(acc.Abs()), m).value.0
      && acc.sent == old(acc.sent) + Handle(old(acc.Abs()), m).value.1
  {
    hide AccTrue, T.FirstBallot, HandlePhase1, HandlePhase1Range, HandlePhase2, HandleCmdMap, StoreValid, Lost, StaleSlots;
    ghost var a := acc.Abs();
    HandleTrue(c, given, opened1, a, m);
    NoneStale(acc);
    match m {
      case Phase1(_, _, _, _, _, _, _) =>
        var ok := acc.HandlePhase1Msg(m);
        outcome := if ok then Done else Abort;
      case Phase1Range(_, _, _, _) =>
        var ok := acc.HandlePhase1RangeMsg(m);
        outcome := if ok then Done else Abort;
      case Phase2(_, _, _, _) =>
        OneLeaderNeverReplaces(c, given, opened1, a, m);
        outcome := acc.HandlePhase2Msg(m);
      case CmdMap(_, _, _) =>
        outcome := acc.HandleCmdMapMsg(m);
      case Acceptance(_, _) =>
        outcome := Done;
        assert acc.sent == acc.sent + [];
    }
    if outcome == Done {
      OneLeaderNoBuffers(c, given, opened1, acc.records[..], acc.commands[..], acc.heap, acc.nextAddr, acc.highestSeen);
    }
  }

  lemma NoneStale(acc: RingAcceptor)
    requires acc.Valid() && acc.StaleNow() == {}
    ensures forall inst: nat :: !StaleAt(acc.records[..], acc.heap, inst)
  {
    forall inst: nat
      ensures !StaleAt(acc.records[..], acc.heap, inst)
    {
      acc.StaleIsIn(inst % acc.records.Length);
    }
  }

  /** An acceptor that is handed any messages of any run of the single-leader system, in any order and any number
      of times: it never frees a buffer that is not allocated, and never allocates or loses one. */
  method ServeRun(ms: seq<Msg>, ghost c: L.Config, ghost n: nat, ghost run: seq<S.Sys>, ghost steps: seq<S.Step>,
                  ghost j: nat, size: nat, slotSize: nat)
    returns (acc: RingAcceptor, outcome: Outcome)
    requires R.IsRun(c, n, run, steps) && j < |run| && size == c.workingSet
    requires forall m :: m in ms ==> m in run[j].net
    ensures outcome != Fault
    ensures outcome == Done ==> acc.Valid() && Tidy(acc)
  {
    hide R.IsRun, AccTrue, T.FirstBallot, Handle, S.Inv, Tidy;
    ghost var s := run[j];
    ghost var given, opened1 := s.given, s.leader.p1HighestOpen;
    R.RunKeeps(c, n, run, steps, j);
    S.Sizes(c, s);
    S.HistoryKeys(c, s);
    FreshIsTrue(c, given, opened1);
    acc := new RingAcceptor(size, slotSize);
    FreshIsTidy(acc);
    outcome := Done;
    var i := 0;
    while i < |ms| && outcome == Done
      invariant i <= |ms| && outcome != Fault && fresh(acc) && fresh(acc.records) && fresh(acc.commands)
      invariant outcome == Done ==> acc.Valid() && Tidy(acc) && AccTrue(c, given, opened1, acc.Abs())
    {
      NetTrueAt(c, s, ms[i]);
      outcome := Serve(acc, ms[i], c, given, opened1);
      i := i + 1;
    }
  }

  lemma NetTrueAt(c: L.Config, s: S.Sys, m: Msg)
    requires S.Inv(c, s) && m in s.net
    ensures T.MsgTrue(c, s.given, s.leader.p1HighestOpen, m)
  {
  }

  lemma FreshIsTrue(c: L.Config, given: seq<Mapping>, opened1: nat)
    requires c.workingSet > 0
    ensures AccTrue(c, given, opened1, InitAcceptor(c.workingSet))
  {
  }

  lemma FreshIsTidy(acc: RingAcceptor)
    requires acc.Valid() && acc.StaleNow() == {} && acc.LostNow() == {} && acc.nextAddr == 0
    ensures Tidy(acc)
  {
    assert acc.heap.Keys == {};
  }

  /** The record of instance 1 in a store of one slot. */
  function Single(r: Rec, seen: nat): Acceptor {
    Acceptor([r], seen)
  }

  lemma MapSteps(r: Rec, seen: nat, key: Key, bytes: Bytes)
    requires r.inst <= 1 && (r.inst == 0 ==> r == FreshRec(0)) && r.proposed.None?
    requires r.accepted.Some? ==> r.accepted.value.key != key
    ensures HandleCmdMap(Single(r, seen), CmdMap(1, key, bytes)) ==
      Some(Single(r.(inst := 1, proposed := Some(Mapping(key, bytes))), seen))
  {
    var r' := r.(inst := 1, proposed := Some(Mapping(key, bytes)));
    assert RecordOf(Single(r, seen), 1) == r.(inst := 1);
    assert [r][0 := r'] == [r'];
    assert Put(Single(r, seen), r') == Single(r', seen);
  }

  lemma VoteSteps(r: Rec, seen: nat, key: Key, b: nat)
    requires r.inst == 1 && r.proposed.Some? && r.proposed.value.key == key && r.ballot <= b
    requires KeyOf(r.accepted) != key && seen <= 1
    ensures HandlePhase2(Single(r, seen), Phase2(1, b, 0, key)) ==
      Some((Single(Rec(1, b, b, r.proposed, None), 1), [Phase2(1, b, 1, key)]))
    ensures RecordOf(Single(r, seen), 1) == r && !Gone(Single(r, seen), 1)
  {
    var r' := Rec(1, b, b, r.proposed, None);
    assert RecordOf(Single(r, seen), 1) == r;
    assert [r][0 := r'] == [r'];
    assert Put(Single(r, seen), r').(highestSeen := 1) == Single(r', 1);
  }

  /** Two commands accepted one after the other in an instance, and the second phase 2 message received twice:
      whatever the keys, values and ballots, the buffer of the second mapping is freed twice. */
  method DoubleFree(k1: Key, v1: Bytes, b1: nat, k2: Key, v2: Bytes, b2: nat) returns (outcome: Outcome)
    requires k1 != NULL_KEY && k2 != NULL_KEY && k1 != k2 && 0 < b1 <= b2
    ensures outcome == Fault
  {
    hide HandleCmdMap, HandlePhase2, StoreValid, AbsAll, Lost, StaleSlots;
    var acc := new RingAcceptor(1, 0);
    ghost var c1, c2 := Some(Mapping(k1, v1)), Some(Mapping(k2, v2));
    MapSteps(FreshRec(0), 0, k1, v1);
    VoteSteps(Rec(1, 0, 0, None, c1), 0, k1, b1);
    MapSteps(Rec(1, b1, b1, c1, None), 1, k2, v2);
    VoteSteps(Rec(1, b1, b1, c1, c2), 1, k2, b2);
    assert acc.Abs() == Single(FreshRec(0), 0);
    StaleReadOff(acc);
    outcome := acc.HandleCmdMapMsg(CmdMap(1, k1, v1));
    StaleReadOff(acc);
    outcome := acc.HandlePhase2Msg(Phase2(1, b1, 0, k1));
    assert acc.Abs() == Single(Rec(1, b1, b1, c1, None), 1);
    StaleReadOff(acc);
    outcome := acc.HandleCmdMapMsg(CmdMap(1, k2, v2));
    assert acc.Abs() == Single(Rec(1, b1, b1, c1, c2), 1);
    StaleReadOff(acc);
    outcome := acc.HandlePhase2Msg(Phase2(1, b2, 0, k2));
    assert acc.Abs() == Single(Rec(1, b2, b2, c2, None), 1);
    assert 0 in acc.StaleNow();
    StaleReadOff(acc);
    outcome := acc.HandlePhase2Msg(Phase2(1, b2, 0, k2));
  }

  /** Staleness of the only slot, read off the record. */
  lemma StaleReadOff(acc: RingAcceptor)
    requires acc.Valid() && acc.records.Length == 1
    ensures StaleAt(acc.records[..], acc.heap, 1) <==> 0 in acc.StaleNow() && acc.Abs().slots[0].inst == 1
  {
    acc.StaleIsIn(0);
    acc.RecordFacts(0);
  }
}
