/** What a libpaxos2 learner delivers, over every sequence of acks. */
module LearnerRuns {
  import opened RingTypes
  import opened LearnerSpec

  /** The acceptors that acknowledged ballot b in the instance. */
  function Voters(ms: seq<Received>, iid: nat, b: nat): set<nat> {
    set m | m in ms && m.ack.iid == iid && m.ack.ballot == b :: m.acc
  }

  /** A quorum of distinct acceptors acknowledged the ballot, or one of them called it final. */
  ghost predicate Justified(c: Config, ms: seq<Received>, iid: nat, b: nat) {
    || |Voters(ms, iid, b)| >= c.quorum
    || exists m :: m in ms && m.ack.iid == iid && m.ack.ballot == b && m.ack.isFinal
  }

  lemma JustifiedLater(c: Config, ms: seq<Received>, ms': seq<Received>, iid: nat, b: nat)
    requires Justified(c, ms, iid, b) && forall m :: m in ms ==> m in ms'
    ensures Justified(c, ms', iid, b)
  {
    var before, after := Voters(ms, iid, b), Voters(ms', iid, b);
    assert before <= after;
    assert after == before + (after - before);
  }

  ghost predicate StoredFrom(ms: seq<Received>, inst: Inst) {
    forall a :: 0 <= a < |inst.acks| && inst.acks[a].Some? ==> Received(a, inst.acks[a].value) in ms
  }

  ghost predicate LoggedFrom(c: Config, ms: seq<Received>, ack: Ack) {
    (exists a :: Received(a, ack) in ms) && Justified(c, ms, ack.iid, ack.ballot)
  }

  /** Everything stored and everything delivered was received, and what was delivered is justified. */
  ghost predicate Provenance(c: Config, ms: seq<Received>, s: State) {
    && (forall i :: i in s.insts ==> StoredFrom(ms, s.insts[i]))
    && (forall j :: 0 <= j < |s.log| ==> LoggedFrom(c, ms, s.log[j]))
  }

  lemma ClosedIsJustified(c: Config, ms: seq<Received>, iid: nat, inst: Inst)
    requires InstOk(c, iid, inst) && StoredFrom(ms, inst) && inst.closing.Some?
    ensures inst.closing.value < |inst.acks| && inst.acks[inst.closing.value].Some?
    ensures LoggedFrom(c, ms, inst.acks[inst.closing.value].value)
  {
    hide Decided;
    var k := inst.closing.value;
    var b := inst.acks[k].value.ballot;
    assert Received(k, inst.acks[k].value) in ms;
    if |Agreeing(inst.acks, b)| >= c.quorum {
      var q, voters := Agreeing(inst.acks, b), Voters(ms, iid, b);
      forall a | a in q
        ensures a in voters
      {
        assert Received(a, inst.acks[a].value) in ms;
      }
      assert voters == q + (voters - q);
    } else {
      var i: nat :| FinalAt(inst.acks, b, i);
      assert Received(i, inst.acks[i].value) in ms;
    }
  }

  lemma ProvenanceLater(c: Config, ms: seq<Received>, m: Received, s: State)
    requires Provenance(c, ms, s)
    ensures Provenance(c, ms + [m], s)
  {
    hide Justified;
    forall j | 0 <= j < |s.log|
      ensures LoggedFrom(c, ms + [m], s.log[j])
    {
      var a :| Received(a, s.log[j]) in ms;
      assert Received(a, s.log[j]) in ms + [m];
      JustifiedLater(c, ms, ms + [m], s.log[j].iid, s.log[j].ballot);
    }
  }

  lemma StoredProvenance(c: Config, ms: seq<Received>, s: State, m: Received)
    requires ValidConfig(c) && Inv(c, s) && Provenance(c, ms, s) && m in ms && m.acc < c.n
    requires InWindow(c, s, m.ack.iid) && |InstOf(c, s, m.ack.iid).acks| == c.n
    requires Relevant(InstOf(c, s, m.ack.iid), m.acc, m.ack)
    ensures var s' := s.(insts := s.insts[m.ack.iid := Store(c, InstOf(c, s, m.ack.iid), m.acc, m.ack)]);
            Kept(c, s') && Provenance(c, ms, s')
  {
    hide Closing, LoggedFrom, InstOk;
    var inst := InstOf(c, s, m.ack.iid);
    EmptyOk(c, m.ack.iid);
    assert InstOk(c, m.ack.iid, inst);
    StoreOk(c, m.ack.iid, inst, m.acc, m.ack);
  }

  lemma HandleProvenance(c: Config, ms: seq<Received>, s: State, m: Received)
    requires ValidConfig(c) && Inv(c, s) && Provenance(c, ms, s) && m in ms && m.acc < c.n
    requires forall i :: i in s.insts ==> |s.insts[i].acks| == c.n
    ensures Provenance(c, ms, HandleAck(c, s, m.acc, m.ack))
  {
    hide Deliver, Store, InstOk, LoggedFrom, StoredFrom;
    var inst := InstOf(c, s, m.ack.iid);
    if InWindow(c, s, m.ack.iid) && Relevant(inst, m.acc, m.ack) {
      var s' := s.(insts := s.insts[m.ack.iid := Store(c, inst, m.acc, m.ack)]);
      StoredProvenance(c, ms, s, m);
      DeliverProvenance(c, ms, s');
    }
  }

  lemma DeliverProvenance(c: Config, ms: seq<Received>, s: State)
    requires ValidConfig(c) && Kept(c, s) && Provenance(c, ms, s)
    ensures Provenance(c, ms, Deliver(s))
  {
    hide Deliver, InstOk, LoggedFrom, StoredFrom;
    DeliverKeeps(c, s);
    var d := Deliver(s);
    forall j | 0 <= j < |d.log|
      ensures LoggedFrom(c, ms, d.log[j])
    {
      if j < |s.log| {
        assert d.log[j] == s.log[j];
      } else {
        assert ClosedWith(s, j + 1, d.log[j]);
        ClosedIsJustified(c, ms, j + 1, s.insts[j + 1]);
      }
    }
  }

  /** Whatever acks arrive: the invariant holds, instances 1, 2, 3, ... are delivered once each and in order, and
      each with an ack that was received, at a ballot with a quorum of acks or a final one. */
  lemma {:induction false} DeliversInOrder(c: Config, ms: seq<Received>)
    requires ValidConfig(c) && forall m :: m in ms ==> m.acc < c.n
    ensures Inv(c, HandleAll(c, ms)) && Provenance(c, ms, HandleAll(c, ms))
    ensures forall j :: 0 <= j < |HandleAll(c, ms).log| ==>
      HandleAll(c, ms).log[j].iid == j + 1 && LoggedFrom(c, ms, HandleAll(c, ms).log[j])
  {
    if ms != [] {
      hide HandleAck, LoggedFrom, InstOk, StoredFrom;
      var before, m := ms[..|ms| - 1], ms[|ms| - 1];
      DeliversInOrder(c, before);
      var s := HandleAll(c, before);
      assert ms == before + [m];
      ProvenanceLater(c, before, m, s);
      HandleKeeps(c, s, m.acc, m.ack);
      HandleProvenance(c, ms, s, m);
    }
  }

  /** Complete: an instance of the window that is not delivered has neither a quorum of stored acks of one
      ballot nor a final one if it is the next, and is marked closed exactly when it has. */
  lemma ClosedExactly(c: Config, ms: seq<Received>, iid: nat)
    requires ValidConfig(c) && forall m :: m in ms ==> m.acc < c.n
    ensures var s := HandleAll(c, ms);
            && (iid in s.insts ==> (s.insts[iid].closing.Some? <==> Decided(c, s.insts[iid].acks)))
            && (s.current in s.insts ==> !Decided(c, s.insts[s.current].acks))
  {
    hide HandleAll, Decided;
    DeliversInOrder(c, ms);
  }

  // ----- a closed instance keeps its final value -----

  /** The instance is closed by this ack, or was delivered with it. */
  ghost predicate Final(s: State, iid: nat, ack: Ack) {
    ClosedWith(s, iid, ack) || (0 < iid <= |s.log| && s.log[iid - 1] == ack)
  }

  lemma FinalOnce(c: Config, s: State, acc: nat, ack: Ack, iid: nat, final: Ack)
    requires ValidConfig(c) && Inv(c, s) && acc < c.n && Final(s, iid, final)
    requires forall i :: i in s.insts ==> |s.insts[i].acks| == c.n
    ensures Final(HandleAck(c, s, acc, ack), iid, final)
  {
    hide Deliver, InstOk, Closing;
    HandleKeeps(c, s, acc, ack);
    var inst := InstOf(c, s, ack.iid);
    EmptyOk(c, ack.iid);
    if InWindow(c, s, ack.iid) && Relevant(inst, acc, ack) {
      assert InstOk(c, ack.iid, inst);
      StoreOk(c, ack.iid, inst, acc, ack);
      var s' := s.(insts := s.insts[ack.iid := Store(c, inst, acc, ack)]);
      assert Final(s', iid, final);
      DeliverKeeps(c, s');
      DeliverFinal(c, s', iid, final);
    }
  }

  lemma DeliverFinal(c: Config, s: State, iid: nat, final: Ack)
    requires ValidConfig(c) && Kept(c, s) && Final(s, iid, final)
    ensures Final(Deliver(s), iid, final)
  {
    hide Deliver, InstOk;
    DeliverKeeps(c, s);
    var d := Deliver(s);
    if ClosedWith(s, iid, final) {
      assert InWindow(c, s, iid);
      if iid < d.current {
        assert ClosedWith(s, (iid - 1) + 1, d.log[iid - 1]);
      }
    } else {
      assert d.log[..|s.log|] == s.log;
      assert d.log[iid - 1] == d.log[..|s.log|][iid - 1];
    }
  }

  /** Once an instance is closed, whatever acks follow: it keeps that final value until it is delivered, and it is
      delivered with it. */
  lemma {:induction false} ClosedIsFinal(c: Config, ms: seq<Received>, more: seq<Received>, iid: nat, final: Ack)
    requires ValidConfig(c) && forall m :: m in ms + more ==> m.acc < c.n
    requires (forall m :: m in ms ==> m.acc < c.n) && Final(HandleAll(c, ms), iid, final)
    ensures Final(HandleAll(c, ms + more), iid, final)
    decreases |more|
  {
    if more == [] {
      assert ms + more == ms;
    } else {
      hide HandleAck, Final;
      var before, m := more[..|more| - 1], more[|more| - 1];
      assert ms + more == (ms + before) + [m];
      assert (ms + more)[..|ms + more| - 1] == ms + before;
      assert forall x :: x in ms + before ==> x in ms + more;
      assert m in ms + more;
      ClosedIsFinal(c, ms, before, iid, final);
      DeliversInOrder(c, ms + before);
      FinalOnce(c, HandleAll(c, ms + before), m.acc, m.ack, iid, final);
    }
  }

  /** Decided ballots carry the decided value. */
  ghost predicate OneValue(c: Config, ms: seq<Received>, value: nat -> Bytes) {
    forall m :: m in ms && Justified(c, ms, m.ack.iid, m.ack.ballot) ==> m.ack.value == value(m.ack.iid)
  }

  /** Two learners that got parts of one history of acks, in any order and with repetitions, deliver
      prefix-comparable values, as long as decided ballots of that history carry one value an instance. */
  lemma LearnersAgree(c: Config, all: seq<Received>, value: nat -> Bytes, ms1: seq<Received>, ms2: seq<Received>)
    requires ValidConfig(c) && OneValue(c, all, value) && forall m :: m in all ==> m.acc < c.n
    requires (forall m :: m in ms1 ==> m in all) && (forall m :: m in ms2 ==> m in all)
    ensures var log1, log2 := HandleAll(c, ms1).log, HandleAll(c, ms2).log;
            forall j :: 0 <= j < |log1| && j < |log2| ==> log1[j].value == log2[j].value == value(j + 1)
  {
    hide HandleAll, Justified, OneValue;
    DeliversInOrder(c, ms1);
    DeliversInOrder(c, ms2);
    var log1, log2 := HandleAll(c, ms1).log, HandleAll(c, ms2).log;
    forall j | 0 <= j < |log1| && j < |log2|
      ensures log1[j].value == log2[j].value == value(j + 1)
    {
      LoggedValue(c, all, value, ms1, log1[j]);
      LoggedValue(c, all, value, ms2, log2[j]);
    }
  }

  lemma LoggedValue(c: Config, all: seq<Received>, value: nat -> Bytes, ms: seq<Received>, ack: Ack)
    requires OneValue(c, all, value) && LoggedFrom(c, ms, ack) && forall m :: m in ms ==> m in all
    ensures ack.value == value(ack.iid)
  {
    hide Justified;
    var a :| Received(a, ack) in ms;
    JustifiedLater(c, ms, all, ack.iid, ack.ballot);
    assert Received(a, ack) in all;
  }
}
