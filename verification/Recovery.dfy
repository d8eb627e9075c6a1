/** How learners recover what was lost: they ask the leader, which answers as long as it has the records. */
module Recovery {
  import opened RingTypes
  import opened LeaderRecord
  import opened LeaderInv
  import opened LeaderTruth
  import opened DeliverySpec
  import opened TotalOrder
  import opened TotalOrderRuns
  import opened RingRoute
  import opened TotalOrderProgress
  import opened Announcements
  import L = LeaderSpec

  /** The messages on the wire that no acceptor had to pass on, broadcasts and answers among them. */
  function OnWire(r: Net): set<Msg> {
    set f | f in r.wire && f.hop == 0 :: f.msg
  }

  /** The leader has the record of the instance after the first j. */
  predicate Held(l: L.Leader, j: nat) {
    |l.slots| > 0 && L.Slot(l, j + 1).inst == j + 1
  }

  lemma AnswersOf(c: L.Config, s: Sys, j: nat)
    requires Inv(c, s) && j < s.leader.highestClosed && Held(s.leader, j)
    ensures Askable(s, j + 1) && j < |s.given|
    ensures L.HandleMapRequest(s.leader, j + 1, true) == Some((s.leader, [MapOf(s.given, j)]))
    ensures L.HandleChosenRequest(s.leader, j + 1) == Some((s.leader, [ChoiceOf(s.given, j)]))
  {
    hide Inv, MsgTrue;
    Sizes(c, s);
    AskedRecord(c, s, j + 1);
    DoneWhenClosed(c, s, j);
    var r := L.Slot(s.leader, j + 1);
    var both := [MappingMsg(r), Acceptance(j + 1, r.key)];
    assert MsgTrue(c, s.given, s.leader.p1HighestOpen, both[0]);
    AskedIsMap(c, s, j + 1);
  }

  lemma DoneWhenClosed(c: L.Config, s: Sys, j: nat)
    requires Inv(c, s) && j < s.leader.highestClosed && Held(s.leader, j)
    ensures L.Slot(s.leader, j + 1).status == Done
  {
    hide NetTrue, AccsTrue, Conserved;
    assert SlotOk(s.leader, (j + 1) % |s.leader.slots|);
  }

  /** Two requests for one closed instance. */
  lemma AskOne(c: L.Config, r: Net, j: nat) returns (r': Net)
    requires Good(c, r) && j < r.sys.leader.highestClosed && Held(r.sys.leader, j)
    ensures Leads(c, r, r') && Good(c, r') && SameLeader(r.sys, r'.sys) && Has(r'.sys.given, OnWire(r'), j)
  {
    hide Good, Inv, L.HandleMapRequest, L.HandleChosenRequest, Leads, LeaderTrue, LeaderOk, Held;
    GoodIs(c, r);
    AnswersOf(c, r.sys, j);
    var r1 := DoAct(c, r, Ask(j + 1, false)).value;
    LeadsByAct(c, r, r1, Ask(j + 1, false));
    GoodIs(c, r1);
    AnswersOf(c, r1.sys, j);
    r' := DoAct(c, r1, Ask(j + 1, true)).value;
    LeadsByAct(c, r1, r', Ask(j + 1, true));
    LeadsOn(c, r, r1, r');
    assert MapOf(r.sys.given, j) in [MapOf(r.sys.given, j)] && ChoiceOf(r.sys.given, j) in [ChoiceOf(r.sys.given, j)];
    assert Flight(MapOf(r.sys.given, j), 0) in r'.wire && Flight(ChoiceOf(r.sys.given, j), 0) in r'.wire;
  }

  lemma HasOn(c: L.Config, r: Net, r': Net, j: nat)
    requires Good(c, r) && Leads(c, r, r') && Has(r.sys.given, OnWire(r), j)
    ensures Has(r'.sys.given, OnWire(r'), j)
  {
    hide Good, Leads;
    LeadsGrows(c, r, r');
    assert MapOf(r'.sys.given, j) == MapOf(r.sys.given, j) && ChoiceOf(r'.sys.given, j) == ChoiceOf(r.sys.given, j);
  }

  /** Requests for all closed instances after the first `from` whose records the leader still has. */
  lemma {:induction false} AskAll(c: L.Config, r: Net, from: nat, last: nat) returns (r': Net)
    requires Good(c, r) && last <= r.sys.leader.highestClosed
    ensures Leads(c, r, r') && Good(c, r') && SameLeader(r.sys, r'.sys)
    ensures forall j :: from <= j < last && Held(r.sys.leader, j) ==> Has(r'.sys.given, OnWire(r'), j)
    decreases last - from
  {
    hide Good, Leads, Held, Has;
    if from >= last {
      LeadsNowhere(c, r);
      r' := r;
    } else {
      var r1 := AskAll(c, r, from, last - 1);
      if Held(r.sys.leader, last - 1) {
        r' := AskOne(c, r1, last - 1);
        LeadsOn(c, r, r1, r');
        forall j | from <= j < last - 1 && Held(r.sys.leader, j)
          ensures Has(r'.sys.given, OnWire(r'), j)
        {
          HasOn(c, r1, r', j);
        }
      } else {
        r' := r1;
      }
    }
  }

  /** What was closed by one round is still there to be asked for. */
  lemma JustClosedIsHeld(c: L.Config, r: Net, from: nat, j: nat)
    requires Good(c, r) && from <= j < r.sys.leader.highestClosed <= from + c.maxActive
    ensures Held(r.sys.leader, j)
  {
    hide Good, LeaderTrue, LeaderOk, L.Slot;
    GoodIs(c, r);
    LeaderBounds(c, r.sys.leader);
    LastRecordsKept(c, r.sys.leader, j + 1);
  }

  /** As TotalOrderProgress.CanCloseAll, and the mapping and the choice of every instance closed on the way are sent. */
  lemma {:induction false} CanFinishTelling(c: L.Config, r: Net) returns (r': Net)
    requires Good(c, r) && c.preexec >= 2 && c.quorum <= |r.sys.accs|
    ensures Leads(c, r, r') && Good(c, r') && SameValues(r.sys, r'.sys)
    ensures r'.sys.leader.highestClosed == |r'.sys.submitted| && r'.sys.leader.queue == []
    ensures forall j :: r.sys.leader.highestClosed <= j < r'.sys.leader.highestClosed ==> Has(r'.sys.given, OnWire(r'), j)
    decreases |r.sys.submitted| - r.sys.leader.highestClosed
  {
    hide Good, Leads, LeaderTrue, LeaderOk, Held, Has;
    GoodIs(c, r);
    if r.sys.leader.highestClosed == |r.sys.submitted| {
      LeadsNowhere(c, r);
      r' := r;
    } else {
      var r2 := CloseOneMore(c, r);
      var k, k2 := r.sys.leader.highestClosed, r2.sys.leader.highestClosed;
      GoodIs(c, r2);
      var r3 := AskAll(c, r2, k, k2);
      r' := CanFinishTelling(c, r3);
      LeadsOn(c, r, r2, r3);
      LeadsOn(c, r, r3, r');
      forall j | k <= j < r'.sys.leader.highestClosed
        ensures Has(r'.sys.given, OnWire(r'), j)
      {
        if j < k2 {
          JustClosedIsHeld(c, r2, k, j);
          HasOn(c, r3, r', j);
        }
      }
    }
  }

  /** The leader has the record of every closed instance that the learner has not delivered. */
  predicate Served(s: Sys, size: nat, ms: seq<Msg>) {
    forall j :: Delivered(size, ms) <= j < s.leader.highestClosed ==> Held(s.leader, j)
  }

  /** A learner is served as long as it is not more than the working set behind. */
  lemma NearIsServed(c: L.Config, s: Sys, size: nat, ms: seq<Msg>)
    requires Inv(c, s) && s.leader.highestClosed <= Delivered(size, ms) + c.workingSet
    ensures Served(s, size, ms)
  {
    hide Inv, LeaderOk, LeaderTrue, L.Slot;
    Sizes(c, s);
    LeaderIs(c, s);
    forall j | Delivered(size, ms) <= j < s.leader.highestClosed
      ensures Held(s.leader, j)
    {
      LastRecordsKept(c, s.leader, j + 1);
    }
  }

  /** From every state, with everything under way lost and everything broadcast before lost to learners: some
      continuation on the ring closes all that was submitted and sends all that a served learner misses. */
  lemma CanFinishServing(c: L.Config, s: Sys) returns (r: Net)
    requires Inv(c, s) && c.preexec >= 2 && c.quorum <= |s.accs|
    ensures Leads(c, Net(s, {}), r) && Good(c, r) && r.sys.submitted == s.submitted
    ensures r.sys.leader.highestClosed == |r.sys.submitted| && r.sys.leader.queue == []
    ensures forall j :: 0 <= j < r.sys.leader.highestClosed && (j < s.leader.highestClosed ==> Held(s.leader, j)) ==>
      Has(r.sys.given, OnWire(r), j)
  {
    hide Good, Leads, LeaderTrue, LeaderOk, Held, Has, Inv;
    var start := Net(s, {});
    GoodEmpty(c, s);
    var r1 := AskAll(c, start, 0, s.leader.highestClosed);
    r := CanFinishTelling(c, r1);
    LeadsOn(c, start, r1, r);
    forall j | 0 <= j < r.sys.leader.highestClosed && (j < s.leader.highestClosed ==> Held(s.leader, j))
      ensures Has(r.sys.given, OnWire(r), j)
    {
      if j < s.leader.highestClosed {
        HasOn(c, r1, r, j);
      }
    }
  }
}
