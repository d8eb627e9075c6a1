/** Ballot numbers: a 16-bit sequence number above the (id, incarnation) of the leader that owns the ballot. */
module Ballots {
  import opened Bits

  const WORD32 := 0x1_0000_0000
  const WORD16 := 0x1_0000

  /** Shifting left by 16 (by 8) multiplies by 0x10000 (by 0x100), within the width of the word. */
  function MakeFirstBallot(id: nat, incarnation: nat): nat {
    (1 * WORD16 + id * 0x100 + incarnation) % WORD32
  }

  /** low + ((uint16_t)(high + 1) << 16) */
  function WithNextSeq(low: nat, high: nat): nat {
    var newSeq := (high + 1) % WORD16;
    (low + newSeq * WORD16) % WORD32
  }

  function RaiseBallot(current: nat, toBeat: nat): nat {
    WithNextSeq(And(current, 0xFFFF), And(toBeat / WORD16, 0xFFFF))
  }

  function IncrementBallot(b: nat): nat {
    WithNextSeq(And(b, 0xFFFF), And(b / WORD16, 0xFFFF))
  }

  predicate IsMyBallot(b: nat, id: nat, incarnation: nat) {
    And(b, 0xFFFF) == (id * 0x100 + incarnation) % WORD16
  }

  /** The two halves of a ballot. */
  function Owner(b: nat): nat {
    b % WORD16
  }

  function Seq(b: nat): nat {
    b / WORD16
  }

  function Ident(id: nat, incarnation: nat): nat {
    id * 256 + incarnation
  }

  lemma IdentInjective(id1: nat, inc1: nat, id2: nat, inc2: nat)
    requires inc1 < 256 && inc2 < 256 && Ident(id1, inc1) == Ident(id2, inc2)
    ensures id1 == id2 && inc1 == inc2
  {
  }

  lemma PowersOfTwo()
    ensures Pow2(16) == WORD16
  {
    assert Pow2(8) == 256;
    Pow2Add(8, 8);
  }

  lemma Mask16(x: nat)
    ensures And(x, 0xFFFF) == x % WORD16
  {
    PowersOfTwo();
    MaskIsMod(x, 16);
  }

  /** The first ballot of a leader is its own and is not zero. */
  lemma FirstBallotIsMine(id: nat, incarnation: nat)
    requires id < 256 && incarnation < 256
    ensures Owner(MakeFirstBallot(id, incarnation)) == Ident(id, incarnation)
    ensures Seq(MakeFirstBallot(id, incarnation)) == 1
    ensures MakeFirstBallot(id, incarnation) < WORD32
  {
  }

  /** Membership is equality of the low half, so a ballot has one owner. */
  lemma MineByOwner(b: nat, id: nat, incarnation: nat)
    requires id < 256 && incarnation < 256
    ensures IsMyBallot(b, id, incarnation) <==> Owner(b) == Ident(id, incarnation)
  {
    Mask16(b);
  }

  lemma OneOwner(b: nat, id1: nat, inc1: nat, id2: nat, inc2: nat)
    requires id1 < 256 && inc1 < 256 && id2 < 256 && inc2 < 256
    requires IsMyBallot(b, id1, inc1) && IsMyBallot(b, id2, inc2)
    ensures id1 == id2 && inc1 == inc2
  {
    MineByOwner(b, id1, inc1);
    MineByOwner(b, id2, inc2);
  }

  lemma NextSeqHalves(low: nat, high: nat)
    requires low < WORD16 && high < WORD16
    ensures Owner(WithNextSeq(low, high)) == low
    ensures Seq(WithNextSeq(low, high)) == (high + 1) % WORD16
    ensures WithNextSeq(low, high) < WORD32
  {
  }

  lemma RaiseHalves(current: nat, toBeat: nat)
    requires current < WORD32 && toBeat < WORD32
    ensures Owner(RaiseBallot(current, toBeat)) == Owner(current)
    ensures Seq(RaiseBallot(current, toBeat)) == (Seq(toBeat) + 1) % WORD16
    ensures RaiseBallot(current, toBeat) < WORD32
  {
    hide And, WithNextSeq;
    Mask16(toBeat / WORD16);
    Mask16(current);
    NextSeqHalves(Owner(current), Seq(toBeat));
  }

  lemma Compare(a: nat, b: nat)
    ensures Seq(a) > Seq(b) ==> a > b
    ensures Seq(a) == 0 ==> a == Owner(a)
  {
  }

  /** A raised ballot beats the ballot it was raised over exactly when that one's sequence number can still grow. */
  lemma RaiseExceeds(current: nat, toBeat: nat)
    requires current < WORD32 && toBeat < WORD32
    ensures RaiseBallot(current, toBeat) > toBeat <==> Seq(toBeat) < 0xFFFF
    ensures Seq(toBeat) == 0xFFFF ==> RaiseBallot(current, toBeat) == Owner(current)
  {
    hide RaiseBallot;
    RaiseHalves(current, toBeat);
    Compare(RaiseBallot(current, toBeat), toBeat);
    Compare(toBeat, RaiseBallot(current, toBeat));
  }

  lemma IncrementIsRaise(b: nat)
    requires b < WORD32
    ensures IncrementBallot(b) == RaiseBallot(b, b)
    ensures IncrementBallot(b) > b <==> Seq(b) < 0xFFFF
  {
    RaiseExceeds(b, b);
  }

  /** The ballots a leader goes through when it is told to beat the given promises one after the other. */
  function Raises(b: nat, promised: seq<nat>): nat {
    if promised == [] then b else RaiseBallot(Raises(b, promised[..|promised| - 1]), promised[|promised| - 1])
  }

  /** Each promise was made to a ballot above the one in use, with a sequence number that can grow. */
  predicate Refusals(b: nat, promised: seq<nat>) {
    forall j :: 0 <= j < |promised| ==>
      Raises(b, promised[..j]) < promised[j] < WORD32 && Seq(promised[j]) < 0xFFFF
  }

  /** Over a whole run a leader's ballots keep their owner and grow strictly past every promise met. */
  lemma {:induction false} BallotsGrow(b: nat, promised: seq<nat>)
    requires b < WORD32 && Refusals(b, promised)
    ensures Raises(b, promised) < WORD32 && Owner(Raises(b, promised)) == Owner(b)
    ensures Raises(b, promised) >= b
    ensures forall j :: 0 <= j < |promised| ==> Raises(b, promised) > promised[j] > Raises(b, promised[..j])
  {
    hide RaiseBallot, Owner, Seq;
    if promised != [] {
      var k := |promised| - 1;
      var before := promised[..k];
      assert forall j :: 0 <= j < k ==> before[..j] == promised[..j];
      BallotsGrow(b, before);
      var current, next := Raises(b, before), Raises(b, promised);
      assert next == RaiseBallot(current, promised[k]);
      RaiseHalves(current, promised[k]);
      RaiseExceeds(current, promised[k]);
      assert next > promised[k] > current;
      forall j | 0 <= j < |promised|
        ensures next > promised[j] > Raises(b, promised[..j])
      {
        hide Raises, RaiseBallot;
        if j < k {
          assert before[..j] == promised[..j] && before[j] == promised[j];
          assert current > before[j] > Raises(b, before[..j]);
        } else {
          assert promised[..j] == before;
        }
      }
    }
  }

  /** Two different leaders never use the same ballot, however often each raises its own. */
  lemma LeadersNeverShareBallot(id1: nat, inc1: nat, run1: seq<nat>, id2: nat, inc2: nat, run2: seq<nat>)
    requires id1 < 256 && inc1 < 256 && id2 < 256 && inc2 < 256
    requires (id1, inc1) != (id2, inc2)
    requires Refusals(MakeFirstBallot(id1, inc1), run1) && Refusals(MakeFirstBallot(id2, inc2), run2)
    ensures Raises(MakeFirstBallot(id1, inc1), run1) != Raises(MakeFirstBallot(id2, inc2), run2)
  {
    hide MakeFirstBallot, Owner, Seq, Raises, Ident, Refusals;
    if Ident(id1, inc1) == Ident(id2, inc2) {
      IdentInjective(id1, inc1, id2, inc2);
    }
    FirstBallotIsMine(id1, inc1);
    FirstBallotIsMine(id2, inc2);
    BallotsGrow(MakeFirstBallot(id1, inc1), run1);
    BallotsGrow(MakeFirstBallot(id2, inc2), run2);
  }
}
