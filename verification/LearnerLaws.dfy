/** The libpaxos2 learner from the acks it received: which ack of an acceptor counts, and when an instance is closed. */
module LearnerLaws {
  import opened RingTypes
  import opened LearnerSpec
  import opened LearnerRuns

  ghost predicate FromAcceptors(c: Config, ms: seq<Received>) {
    ValidConfig(c) && forall m :: m in ms ==> m.acc < c.n
  }

  /** The next instance to deliver after the first j acks. */
  function Current(c: Config, ms: seq<Received>, j: nat): nat
    requires j <= |ms| && ValidConfig(c) && forall m :: m in ms ==> m.acc < c.n
  {
    HandleAll(c, ms[..j]).current
  }

  /** The j-th ack is one of this acceptor for the instance, and came while the instance was not delivered and less than
      the size of the learner's memory ahead. */
  predicate Heard(c: Config, ms: seq<Received>, j: nat, iid: nat, a: nat)
    requires j < |ms| && ValidConfig(c) && forall m :: m in ms ==> m.acc < c.n
  {
    && ms[j].acc == a && ms[j].ack.iid == iid
    && Current(c, ms, j) <= iid < Current(c, ms, j) + c.size
  }

  /** Of the acks heard from an acceptor for the instance, the first one of the highest ballot. */
  function Latest(c: Config, ms: seq<Received>, n: nat, iid: nat, a: nat): Option<Ack>
    requires n <= |ms| && ValidConfig(c) && forall m :: m in ms ==> m.acc < c.n
  {
    if n == 0 then
      None
    else
      var before := Latest(c, ms, n - 1, iid, a);
      if Heard(c, ms, n - 1, iid, a) && (before.None? || before.value.ballot < ms[n - 1].ack.ballot) then
        Some(ms[n - 1].ack)
      else
        before
  }

  lemma {:induction false} LatestIsHighest(c: Config, ms: seq<Received>, n: nat, iid: nat, a: nat)
    requires n <= |ms| && FromAcceptors(c, ms)
    ensures Latest(c, ms, n, iid, a).Some? ==>
      exists j :: 0 <= j < n && Heard(c, ms, j, iid, a) && ms[j].ack == Latest(c, ms, n, iid, a).value
    ensures forall j :: 0 <= j < n && Heard(c, ms, j, iid, a) ==>
      Latest(c, ms, n, iid, a).Some? && ms[j].ack.ballot <= Latest(c, ms, n, iid, a).value.ballot
  {
    hide Heard;
    if n > 0 {
      LatestIsHighest(c, ms, n - 1, iid, a);
    }
  }

  /** Not delivered and not closed. */
  predicate Open(s: State, iid: nat) {
    s.current <= iid && (iid in s.insts ==> s.insts[iid].closing.None?)
  }

  function Stored(s: State, iid: nat, a: nat): Option<Ack> {
    if iid in s.insts && a < |s.insts[iid].acks| then s.insts[iid].acks[a] else None
  }

  /** One ack, on an instance that is open afterwards. */
  lemma StoresOne(c: Config, s: State, acc: nat, ack: Ack, iid: nat, a: nat)
    requires ValidConfig(c) && Inv(c, s) && acc < c.n && a < c.n
    requires forall i :: i in s.insts ==> |s.insts[i].acks| == c.n
    requires Open(HandleAck(c, s, acc, ack), iid)
    ensures Open(s, iid)
    ensures Stored(HandleAck(c, s, acc, ack), iid, a) ==
      if acc == a && ack.iid == iid && s.current <= iid < s.current + c.size
         && (Stored(s, iid, a).None? || Stored(s, iid, a).value.ballot < ack.ballot)
      then Some(ack) else Stored(s, iid, a)
  {
    hide Deliver, InstOk, Closing;
    var inst := InstOf(c, s, ack.iid);
    EmptyOk(c, ack.iid);
    if InWindow(c, s, ack.iid) && Relevant(inst, acc, ack) {
      assert InstOk(c, ack.iid, inst);
      StoreOk(c, ack.iid, inst, acc, ack);
      var s' := s.(insts := s.insts[ack.iid := Store(c, inst, acc, ack)]);
      assert Kept(c, s');
      DeliverKeeps(c, s');
    }
  }

  /** For an instance that is open, the ack stored for an acceptor is the one of the highest ballot heard from it. */
  lemma {:induction false} StoredIsLatest(c: Config, ms: seq<Received>, n: nat, iid: nat, a: nat)
    requires n <= |ms| && FromAcceptors(c, ms) && a < c.n
    requires Open(HandleAll(c, ms[..n]), iid)
    ensures Stored(HandleAll(c, ms[..n]), iid, a) == Latest(c, ms, n, iid, a)
  {
    if n > 0 {
      hide HandleAck, Inv, Open, Stored;
      var before, m := ms[..n - 1], ms[n - 1];
      assert ms[..n][..|ms[..n]| - 1] == before && ms[..n][|ms[..n]| - 1] == m;
      DeliversInOrder(c, before);
      StoresOne(c, HandleAll(c, before), m.acc, m.ack, iid, a);
      StoredIsLatest(c, ms, n - 1, iid, a);
    }
  }

  /** As soon as the latest acks heard from a quorum share a ballot, or one of them is final, the instance is closed
      or delivered. */
  lemma QuorumCloses(c: Config, ms: seq<Received>, iid: nat, b: nat, quorum: set<nat>)
    requires FromAcceptors(c, ms) && iid > 0
    requires forall a :: a in quorum ==>
      a < c.n && Latest(c, ms, |ms|, iid, a).Some? && Latest(c, ms, |ms|, iid, a).value.ballot == b
    requires |quorum| >= c.quorum || exists a :: a in quorum && Latest(c, ms, |ms|, iid, a).value.isFinal
    ensures var s := HandleAll(c, ms);
            || (iid <= |s.log| && s.log[iid - 1].iid == iid)
            || (iid in s.insts && s.insts[iid].closing.Some?)
  {
    hide HandleAll;
    DeliversInOrder(c, ms);
    var s := HandleAll(c, ms);
    assert ms[..|ms|] == ms;
    if Open(s, iid) {
      forall a | a in quorum
        ensures Stored(s, iid, a) == Latest(c, ms, |ms|, iid, a)
      {
        StoredIsLatest(c, ms, |ms|, iid, a);
      }
      hide Latest;
      StoredQuorumCloses(c, s, iid, b, quorum);
    }
  }

  lemma StoredQuorumCloses(c: Config, s: State, iid: nat, b: nat, quorum: set<nat>)
    requires ValidConfig(c) && Inv(c, s)
    requires forall a :: a in quorum ==> a < c.n && Stored(s, iid, a).Some? && Stored(s, iid, a).value.ballot == b
    requires |quorum| >= c.quorum || exists a :: a in quorum && Stored(s, iid, a).value.isFinal
    ensures iid in s.insts && s.insts[iid].closing.Some?
  {
    var x :| x in quorum;
    var acks := s.insts[iid].acks;
    assert InstOk(c, iid, s.insts[iid]);
    if |quorum| >= c.quorum {
      var agreeing := Agreeing(acks, b);
      forall a | a in quorum
        ensures a in agreeing
      {
        assert HasBallot(acks, b, a);
      }
      assert agreeing == quorum + (agreeing - quorum);
    } else {
      var a :| a in quorum && Stored(s, iid, a).value.isFinal;
      assert acks[a].value.isFinal;
    }
  }

  lemma {:induction false} FirstFinalIsFirst(acks: Acks, b: nat, i: nat)
    requires i <= |acks| && FirstFinal(acks, b, i).Some?
    ensures forall j :: i <= j < FirstFinal(acks, b, i).value ==> !FinalAt(acks, b, j)
    decreases |acks| - i
  {
    if !FinalAt(acks, b, i) {
      FirstFinalIsFirst(acks, b, i + 1);
    }
  }

  lemma {:induction false} LastOfIsLast(acks: Acks, b: nat, i: nat)
    requires i <= |acks| && LastOf(acks, b, i).Some?
    ensures forall j :: LastOf(acks, b, i).value < j < i ==> !HasBallot(acks, b, j)
    decreases i
  {
    if !HasBallot(acks, b, i - 1) {
      LastOfIsLast(acks, b, i - 1);
    }
  }

  /** The ack an instance is closed with: the first final one of the ballot, or else the last one of the ballot. */
  lemma ClosingAck(c: Config, acks: Acks, b: nat, i: nat)
    requires 0 < c.quorum && Closing(c, acks, b) == Some(i)
    ensures i < |acks| && acks[i].Some? && acks[i].value.ballot == b
    ensures if exists j :: 0 <= j < |acks| && FinalAt(acks, b, j) then
              acks[i].value.isFinal && forall j :: 0 <= j < i ==> !FinalAt(acks, b, j)
            else
              forall j :: i < j < |acks| ==> acks[j].None? || acks[j].value.ballot != b
  {
    ClosingFacts(c, acks, b);
    FirstFinalFacts(acks, b, 0);
    if FirstFinal(acks, b, 0).Some? {
      FirstFinalIsFirst(acks, b, 0);
    } else {
      LastOfIsLast(acks, b, |acks|);
      forall j | i < j < |acks|
        ensures acks[j].None? || acks[j].value.ballot != b
      {
        assert !HasBallot(acks, b, j);
      }
    }
  }
}
