/** The libpaxos2 learner as a map from undelivered instances to what acceptors acknowledged for them. */
module LearnerSpec {
  import opened RingTypes

  /** The number of acceptors, how many make a quorum, and the number of instances kept. */
  datatype Config = Config(n: nat, quorum: nat, size: nat)

  predicate ValidConfig(c: Config) {
    0 < c.quorum <= c.n && c.size > 0
  }

  datatype Ack = Ack(iid: nat, ballot: nat, isFinal: bool, value: Bytes)

  type Acks = seq<Option<Ack>>

  /** The last ack stored for each acceptor, and the acceptor whose ack closed the instance. */
  datatype Inst = Inst(acks: Acks, closing: Option<nat>)

  datatype State = State(current: nat, log: seq<Ack>, insts: map<nat, Inst>)

  const INIT := State(1, [], map[])

  predicate HasBallot(acks: Acks, b: nat, i: nat) {
    i < |acks| && acks[i].Some? && acks[i].value.ballot == b
  }

  /** The acceptors whose stored ack has ballot b. */
  function Agreeing(acks: Acks, b: nat): set<nat> {
    set i | 0 <= i < |acks| && HasBallot(acks, b, i)
  }

  predicate FinalAt(acks: Acks, b: nat, i: nat) {
    HasBallot(acks, b, i) && acks[i].value.isFinal
  }

  /** The first final ack of the ballot, or else the last ack of it. */
  function LastOf(acks: Acks, b: nat, i: nat): Option<nat>
    requires i <= |acks|
    decreases i
  {
    if i == 0 then None else if HasBallot(acks, b, i - 1) then Some(i - 1) else LastOf(acks, b, i - 1)
  }

  function FirstFinal(acks: Acks, b: nat, i: nat): Option<nat>
    requires i <= |acks|
    decreases |acks| - i
  {
    if i == |acks| then None else if FinalAt(acks, b, i) then Some(i) else FirstFinal(acks, b, i + 1)
  }

  /** Only the ballot stored last is looked at. */
  function Closing(c: Config, acks: Acks, b: nat): Option<nat> {
    if FirstFinal(acks, b, 0).Some? then FirstFinal(acks, b, 0)
    else if |Agreeing(acks, b)| >= c.quorum then LastOf(acks, b, |acks|)
    else None
  }

  function InstOf(c: Config, s: State, iid: nat): Inst {
    if iid in s.insts then s.insts[iid] else Inst(seq(c.n, _ => None), None)
  }

  /** Whether the ack is newer than what is stored for its acceptor in an open instance. */
  predicate Relevant(inst: Inst, acc: nat, ack: Ack)
    requires acc < |inst.acks|
  {
    inst.closing.None? && (inst.acks[acc].None? || inst.acks[acc].value.ballot < ack.ballot)
  }

  function Store(c: Config, inst: Inst, acc: nat, ack: Ack): Inst
    requires acc < |inst.acks|
  {
    var acks := inst.acks[acc := Some(ack)];
    Inst(acks, Closing(c, acks, ack.ballot))
  }

  predicate HeadClosed(s: State) {
    s.current in s.insts && s.insts[s.current].closing.Some?
    && s.insts[s.current].closing.value < |s.insts[s.current].acks|
    && s.insts[s.current].acks[s.insts[s.current].closing.value].Some?
  }

  function DeliverOne(s: State): State
    requires HeadClosed(s)
  {
    var inst := s.insts[s.current];
    State(s.current + 1, s.log + [inst.acks[inst.closing.value].value], s.insts - {s.current})
  }

  lemma OneLess(s: State)
    requires HeadClosed(s)
    ensures |DeliverOne(s).insts| < |s.insts|
  {
    assert (s.insts - {s.current}).Keys == s.insts.Keys - {s.current};
    assert s.insts.Keys == (s.insts - {s.current}).Keys + {s.current};
  }

  /** Deliver instance after instance while the next one is closed. */
  function Deliver(s: State): State
    decreases |s.insts|
  {
    if HeadClosed(s) then
      OneLess(s);
      Deliver(DeliverOne(s))
    else
      s
  }

  predicate InWindow(c: Config, s: State, iid: nat) {
    s.current <= iid < s.current + c.size
  }

  function HandleAck(c: Config, s: State, acc: nat, ack: Ack): State
    requires acc < c.n && forall i :: i in s.insts ==> |s.insts[i].acks| == c.n
  {
    var inst := InstOf(c, s, ack.iid);
    if !InWindow(c, s, ack.iid) || !Relevant(inst, acc, ack) then
      s
    else
      var inst' := Store(c, inst, acc, ack);
      var s' := s.(insts := s.insts[ack.iid := inst']);
      if inst'.closing.Some? && ack.iid == s.current then Deliver(s') else s'
  }

  datatype Received = Received(acc: nat, ack: Ack)

  function HandleAll(c: Config, ms: seq<Received>): (s: State)
    requires ValidConfig(c) && forall m :: m in ms ==> m.acc < c.n
    ensures forall i :: i in s.insts ==> |s.insts[i].acks| == c.n
  {
    if ms == [] then
      INIT
    else
      var m := ms[|ms| - 1];
      var s := HandleAll(c, ms[..|ms| - 1]);
      SizesKept(c, s, m.acc, m.ack);
      HandleAck(c, s, m.acc, m.ack)
  }

  lemma {:induction false} DeliverSizes(c: Config, s: State)
    requires forall i :: i in s.insts ==> |s.insts[i].acks| == c.n
    ensures forall i :: i in Deliver(s).insts ==> |Deliver(s).insts[i].acks| == c.n
    decreases |s.insts|
  {
    if HeadClosed(s) {
      OneLess(s);
      DeliverSizes(c, DeliverOne(s));
    }
  }

  lemma SizesKept(c: Config, s: State, acc: nat, ack: Ack)
    requires acc < c.n && forall i :: i in s.insts ==> |s.insts[i].acks| == c.n
    ensures forall i :: i in HandleAck(c, s, acc, ack).insts ==> |HandleAck(c, s, acc, ack).insts[i].acks| == c.n
  {
    hide Deliver, Closing;
    var inst := InstOf(c, s, ack.iid);
    if InWindow(c, s, ack.iid) && Relevant(inst, acc, ack) {
      DeliverSizes(c, s.(insts := s.insts[ack.iid := Store(c, inst, acc, ack)]));
    }
  }

  // ----- quorum detection -----

  ghost predicate HasFinal(acks: Acks) {
    exists i :: 0 <= i < |acks| && acks[i].Some? && acks[i].value.isFinal
  }

  ghost predicate HasQuorum(c: Config, acks: Acks) {
    exists b :: |Agreeing(acks, b)| >= c.quorum
  }

  /** The stored acks decide the instance: some ballot has a quorum of them, or one is final. */
  ghost predicate Decided(c: Config, acks: Acks) {
    HasQuorum(c, acks) || HasFinal(acks)
  }

  lemma {:induction false} LastOfFacts(acks: Acks, b: nat, i: nat)
    requires i <= |acks|
    ensures LastOf(acks, b, i).Some? ==> LastOf(acks, b, i).value < i && HasBallot(acks, b, LastOf(acks, b, i).value)
    ensures LastOf(acks, b, i).None? ==> forall j :: 0 <= j < i ==> !HasBallot(acks, b, j)
    decreases i
  {
    if i > 0 {
      LastOfFacts(acks, b, i - 1);
    }
  }

  lemma {:induction false} FirstFinalFacts(acks: Acks, b: nat, i: nat)
    requires i <= |acks|
    ensures FirstFinal(acks, b, i).Some? ==> i <= FirstFinal(acks, b, i).value && FinalAt(acks, b, FirstFinal(acks, b, i).value)
    ensures FirstFinal(acks, b, i).None? ==> forall j :: i <= j < |acks| ==> !FinalAt(acks, b, j)
    decreases |acks| - i
  {
    if i < |acks| {
      FirstFinalFacts(acks, b, i + 1);
    }
  }

  /** The acceptor chosen has an ack of the ballot; it is chosen exactly when there is a final ack of the ballot
      or a quorum of acks of it. */
  lemma ClosingFacts(c: Config, acks: Acks, b: nat)
    requires 0 < c.quorum
    ensures Closing(c, acks, b).Some? <==> |Agreeing(acks, b)| >= c.quorum || exists i: nat :: FinalAt(acks, b, i)
    ensures Closing(c, acks, b).Some? ==> HasBallot(acks, b, Closing(c, acks, b).value)
  {
    FirstFinalFacts(acks, b, 0);
    LastOfFacts(acks, b, |acks|);
    assert LastOf(acks, b, |acks|).None? ==> Agreeing(acks, b) == {};
  }

  /** Storing an ack raises the count of its own ballot by one and raises no other count. */
  lemma StoreCounts(acks: Acks, acc: nat, ack: Ack)
    requires acc < |acks| && (acks[acc].None? || acks[acc].value.ballot < ack.ballot)
    ensures Agreeing(acks[acc := Some(ack)], ack.ballot) == Agreeing(acks, ack.ballot) + {acc} && acc !in Agreeing(acks, ack.ballot)
    ensures forall b :: b != ack.ballot ==> Agreeing(acks[acc := Some(ack)], b) == Agreeing(acks, b) - {acc}
  {
    var acks' := acks[acc := Some(ack)];
    forall b | b != ack.ballot
      ensures Agreeing(acks', b) == Agreeing(acks, b) - {acc}
    {
      forall i | 0 <= i < |acks|
        ensures HasBallot(acks', b, i) <==> i != acc && HasBallot(acks, b, i)
      {
      }
    }
    assert forall i :: 0 <= i < |acks| && i != acc ==> HasBallot(acks', ack.ballot, i) == HasBallot(acks, ack.ballot, i);
  }

  lemma FewerAgree(acks: Acks, acc: nat, ack: Ack, b: nat)
    requires acc < |acks| && (acks[acc].None? || acks[acc].value.ballot < ack.ballot) && b != ack.ballot
    ensures |Agreeing(acks[acc := Some(ack)], b)| <= |Agreeing(acks, b)|
  {
    StoreCounts(acks, acc, ack);
    var before, after := Agreeing(acks, b), Agreeing(acks[acc := Some(ack)], b);
    assert before == after + (before - after);
  }

  /** Looking at the ballot stored last is enough: when the acks did not decide the instance before, they do
      after exactly when that one ballot does. */
  lemma LastBallotDecides(c: Config, acks: Acks, acc: nat, ack: Ack)
    requires 0 < c.quorum && acc < |acks| && (acks[acc].None? || acks[acc].value.ballot < ack.ballot)
    requires !Decided(c, acks)
    ensures Closing(c, acks[acc := Some(ack)], ack.ballot).Some? <==> Decided(c, acks[acc := Some(ack)])
  {
    hide Closing, Agreeing;
    var acks' := acks[acc := Some(ack)];
    ClosingFacts(c, acks', ack.ballot);
    if HasQuorum(c, acks') {
      var b :| |Agreeing(acks', b)| >= c.quorum;
      if b != ack.ballot {
        FewerAgree(acks, acc, ack, b);
      }
    }
    if HasFinal(acks') {
      var i :| 0 <= i < |acks'| && acks'[i].Some? && acks'[i].value.isFinal;
      assert i == acc;
      assert FinalAt(acks', ack.ballot, acc);
    }
    if exists i: nat :: FinalAt(acks', ack.ballot, i) {
      var i: nat :| FinalAt(acks', ack.ballot, i);
      assert acks'[i].value.isFinal;
    }
  }

  // ----- the invariant -----

  /** An instance is closed exactly when its acks decide it; the chosen ack has the deciding ballot. */
  ghost predicate InstOk(c: Config, iid: nat, inst: Inst) {
    && |inst.acks| == c.n
    && (forall a :: 0 <= a < c.n && inst.acks[a].Some? ==> inst.acks[a].value.iid == iid)
    && (inst.closing.Some? <==> Decided(c, inst.acks))
    && (inst.closing.Some? ==>
          && inst.closing.value < c.n && inst.acks[inst.closing.value].Some?
          && Supported(c, inst.acks, inst.acks[inst.closing.value].value.ballot))
  }

  ghost predicate Supported(c: Config, acks: Acks, b: nat) {
    |Agreeing(acks, b)| >= c.quorum || exists i: nat :: FinalAt(acks, b, i)
  }

  ghost predicate Kept(c: Config, s: State) {
    && s.current == |s.log| + 1
    && (forall i :: i in s.insts ==> InWindow(c, s, i) && InstOk(c, i, s.insts[i]))
    && (forall j :: 0 <= j < |s.log| ==> s.log[j].iid == j + 1)
  }

  ghost predicate Inv(c: Config, s: State) {
    Kept(c, s) && !HeadClosed(s)
  }

  lemma EmptyOk(c: Config, iid: nat)
    requires 0 < c.quorum
    ensures InstOk(c, iid, Inst(seq(c.n, _ => None), None))
  {
    var acks: Acks := seq(c.n, _ => None);
    forall b
      ensures Agreeing(acks, b) == {}
    {
    }
  }

  lemma StoreOk(c: Config, iid: nat, inst: Inst, acc: nat, ack: Ack)
    requires 0 < c.quorum && InstOk(c, iid, inst) && acc < c.n && ack.iid == iid && Relevant(inst, acc, ack)
    ensures InstOk(c, iid, Store(c, inst, acc, ack))
  {
    hide Closing, Agreeing, Decided;
    var acks' := inst.acks[acc := Some(ack)];
    LastBallotDecides(c, inst.acks, acc, ack);
    ClosingFacts(c, acks', ack.ballot);
  }

  /** The instance is closed and this is the ack that closed it. */
  predicate ClosedWith(s: State, iid: nat, ack: Ack) {
    && iid in s.insts && s.insts[iid].closing.Some?
    && s.insts[iid].closing.value < |s.insts[iid].acks|
    && s.insts[iid].acks[s.insts[iid].closing.value] == Some(ack)
  }

  /** What the deliver loop appends: the closed head run, in order. */
  lemma {:induction false} DeliverKeeps(c: Config, s: State)
    requires ValidConfig(c) && Kept(c, s)
    ensures Inv(c, Deliver(s)) && s.log <= Deliver(s).log
    ensures forall j :: |s.log| <= j < |Deliver(s).log| ==> ClosedWith(s, j + 1, Deliver(s).log[j])
    ensures forall i :: i in Deliver(s).insts <==> i in s.insts && i >= Deliver(s).current
    ensures forall i :: i in Deliver(s).insts ==> Deliver(s).insts[i] == s.insts[i]
    decreases |s.insts|
  {
    hide InstOk;
    if HeadClosed(s) {
      OneLess(s);
      var s1 := DeliverOne(s);
      HeadIsNext(c, s);
      assert Deliver(s) == Deliver(s1);
      DeliverKeeps(c, s1);
      var d := Deliver(s1);
      assert s.log <= s1.log <= d.log;
      assert d.log[|s.log|] == s1.log[|s.log|];
      forall j | |s.log| <= j < |d.log|
        ensures ClosedWith(s, j + 1, d.log[j])
      {
        if j > |s.log| {
          assert ClosedWith(s1, j + 1, d.log[j]);
        }
      }
    }
  }

  lemma HeadIsNext(c: Config, s: State)
    requires Kept(c, s) && HeadClosed(s)
    ensures Kept(c, DeliverOne(s)) && s.insts[s.current].closing.value < c.n == |s.insts[s.current].acks|
  {
    hide Decided, Supported;
    assert InstOk(c, s.current, s.insts[s.current]);
  }

  /** Any ack, from any acceptor, keeps the invariant; the log only grows. */
  lemma HandleKeeps(c: Config, s: State, acc: nat, ack: Ack)
    requires ValidConfig(c) && Inv(c, s) && acc < c.n
    requires forall i :: i in s.insts ==> |s.insts[i].acks| == c.n
    ensures Inv(c, HandleAck(c, s, acc, ack)) && s.log <= HandleAck(c, s, acc, ack).log
  {
    hide Deliver, InstOk, Closing;
    var inst := InstOf(c, s, ack.iid);
    EmptyOk(c, ack.iid);
    if InWindow(c, s, ack.iid) && Relevant(inst, acc, ack) {
      assert InstOk(c, ack.iid, inst);
      StoreOk(c, ack.iid, inst, acc, ack);
      var s' := s.(insts := s.insts[ack.iid := Store(c, inst, acc, ack)]);
      assert Kept(c, s');
      DeliverKeeps(c, s');
    }
  }
}
