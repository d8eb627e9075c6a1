/** The libpaxos2 learner as the program runs it: a circular array of instance records. */
module LpLearners {
  import opened RingTypes
  import opened Bits
  import opened Modular
  import opened LearnerSpec

  /** The learner's record of one instance; iid 0 marks an empty one. */
  datatype Info = Info(iid: nat, lastBallot: nat, acks: Acks, final: Option<nat>)

  function Cleared(n: nat): Info {
    Info(0, 0, seq(n, _ => None), None)
  }

  predicate Placed(e: Info, n: nat, k: nat, current: nat, size: nat)
    requires size > 0
  {
    && |e.acks| == n
    && (if e.iid == 0 then e == Cleared(n) else current <= e.iid < current + size && e.iid % size == k)
    && (e.final.Some? ==> e.final.value < n && e.acks[e.final.value].Some?)
  }

  ghost predicate AllPlaced(es: seq<Info>, n: nat, current: nat) {
    |es| > 0 && current > 0 && forall k :: 0 <= k < |es| ==> Placed(es[k], n, k, current, |es|)
  }

  /** The records of the window, by instance. */
  ghost function View(es: seq<Info>, current: nat): map<nat, Inst>
    requires |es| > 0
  {
    map i | current <= i < current + |es| && es[i % |es|].iid == i :: Inst(es[i % |es|].acks, es[i % |es|].final)
  }

  lemma ViewSizes(es: seq<Info>, n: nat, current: nat)
    requires AllPlaced(es, n, current)
    ensures forall i :: i in View(es, current) ==> |View(es, current)[i].acks| == n
  {
    forall i | i in View(es, current)
      ensures |View(es, current)[i].acks| == n
    {
      assert Placed(es[i % |es|], n, i % |es|, current, |es|);
    }
  }

  lemma ViewSet(es: seq<Info>, n: nat, current: nat, e: Info)
    requires AllPlaced(es, n, current) && current <= e.iid < current + |es|
    requires Placed(e, n, e.iid % |es|, current, |es|)
    ensures AllPlaced(es[e.iid % |es| := e], n, current)
    ensures View(es[e.iid % |es| := e], current) == View(es, current)[e.iid := Inst(e.acks, e.final)]
  {
    var k := e.iid % |es|;
    forall i | current <= i < current + |es| && i != e.iid
      ensures i % |es| != k
    {
      if i < e.iid {
        SlotsApart(i, e.iid, |es|);
      } else {
        SlotsApart(e.iid, i, |es|);
      }
    }
  }

  /** A slot holds the instance of the window that belongs to it, or is empty. */
  lemma SlotOf(es: seq<Info>, n: nat, current: nat, iid: nat)
    requires AllPlaced(es, n, current) && current <= iid < current + |es|
    ensures var e := es[iid % |es|]; e.iid == iid || e == Cleared(n)
  {
    var e := es[iid % |es|];
    assert Placed(e, n, iid % |es|, current, |es|);
    if e.iid != 0 && e.iid != iid {
      if e.iid < iid {
        SlotsApart(e.iid, iid, |es|);
      } else {
        SlotsApart(iid, e.iid, |es|);
      }
    }
  }

  /** Clearing the record of the delivered instance and moving the window by one. */
  lemma ViewNext(es: seq<Info>, n: nat, current: nat)
    requires AllPlaced(es, n, current) && es[current % |es|].iid == current
    ensures AllPlaced(es[current % |es| := Cleared(n)], n, current + 1)
    ensures View(es[current % |es| := Cleared(n)], current + 1) == View(es, current) - {current}
  {
    var size, k := |es|, current % |es|;
    var es' := es[k := Cleared(n)];
    NextLap(current, size);
    forall i | current < i < current + size
      ensures i % size != k && es'[i % size] == es[i % size]
    {
      SlotsApart(current, i, size);
    }
    assert es'[(current + size) % size].iid == 0;
    forall j | 0 <= j < size
      ensures Placed(es'[j], n, j, current + 1, size)
    {
      assert Placed(es[j], n, j, current, size);
    }
  }

  lemma AgreeingStep(acks: Acks, b: nat, i: nat)
    requires i < |acks|
    ensures Agreeing(acks[..i + 1], b) == Agreeing(acks[..i], b) + if HasBallot(acks, b, i) then {i} else {}
    ensures i !in Agreeing(acks[..i], b)
  {
  }

  class LpLearner {
    const cfg: Config
    const bits: nat
    const infos: array<Info>
    var currentIid: nat
    var highestSeen: nat
    var highestClosed: nat
    /** The acks handed to the deliver callback. */
    var log: seq<Ack>

    ghost predicate Valid()
      reads this, infos
    {
      && ValidConfig(cfg) && infos.Length == cfg.size == Pow2(bits)
      && AllPlaced(infos[..], cfg.n, currentIid)
    }

    ghost function Abs(): (s: State)
      requires Valid()
      reads this, infos
      ensures forall i :: i in s.insts ==> |s.insts[i].acks| == cfg.n
    {
      ViewSizes(infos[..], cfg.n, currentIid);
      State(currentIid, log, View(infos[..], currentIid))
    }

    constructor (c: Config, bits: nat)
      requires ValidConfig(c) && c.size == Pow2(bits)
      ensures Valid() && fresh(infos) && cfg == c && Abs() == INIT
    {
      cfg, this.bits := c, bits;
      infos := new Info[c.size](_ => Cleared(c.n));
      currentIid, highestSeen, highestClosed, log := 1, 1, 0, [];
      new;
      assert forall k :: 0 <= k < c.size ==> infos[k] == Cleared(c.n);
    }

    /** Masking with size - 1 is the remainder by size. */
    method Index(iid: nat) returns (k: nat)
      requires Valid()
      ensures k == iid % infos.Length && k < infos.Length
    {
      MaskIsMod(iid, bits);
      k := And(iid, infos.Length - 1);
    }

    method IsClosed(iid: nat) returns (closed: bool)
      requires Valid()
      ensures closed <==> iid in Abs().insts && Abs().insts[iid].closing.Some?
    {
      var k := Index(iid);
      assert Placed(infos[..][k], cfg.n, k, currentIid, infos.Length);
      closed := iid == infos[k].iid && infos[k].final.Some?;
    }

    /** Looks at the acks of the ballot stored last; the acceptor whose ack becomes the final value, if any. */
    method CheckQuorum(info: Info) returns (closing: Option<nat>)
      requires Valid() && |info.acks| == cfg.n
      ensures closing == Closing(cfg, info.acks, info.lastBallot)
    {
      var i, count := 0, 0;
      closing := None;
      var b := info.lastBallot;
      while i < cfg.n
        invariant i <= cfg.n && closing == LastOf(info.acks, b, i)
        invariant count == |Agreeing(info.acks[..i], b)|
        invariant FirstFinal(info.acks, b, 0) == FirstFinal(info.acks, b, i)
      {
        AgreeingStep(info.acks, b, i);
        if info.acks[i].Some? && info.acks[i].value.ballot == b {
          closing := Some(i);
          count := count + 1;
          if info.acks[i].value.isFinal {
            return;
          }
        }
        i := i + 1;
      }
      assert info.acks[..i] == info.acks;
      if count < cfg.quorum {
        closing := None;
      }
    }

    /** Writes the record of an instance of the window. */
    method SetInfo(e: Info)
      requires Valid() && currentIid <= e.iid < currentIid + infos.Length && |e.acks| == cfg.n
      requires e.final.Some? ==> e.final.value < cfg.n && e.acks[e.final.value].Some?
      modifies infos
      ensures Valid() && infos[..] == old(infos[..])[e.iid % infos.Length := e]
      ensures Abs() == old(Abs()).(insts := old(Abs()).insts[e.iid := Inst(e.acks, e.final)])
    {
      var k := Index(e.iid);
      ViewSet(infos[..], cfg.n, currentIid, e);
      infos[k] := e;
      assert infos[..] == old(infos[..])[k := e];
    }

    /** The record of an instance of the window, as the specification sees it. */
    lemma InfoFacts(iid: nat)
      requires Valid() && currentIid <= iid < currentIid + infos.Length
      ensures var e := infos[iid % infos.Length];
              && |e.acks| == cfg.n && (e.iid == iid || e == Cleared(cfg.n))
              && InstOf(cfg, Abs(), iid) == Inst(e.acks, e.final)
              && (e.final.Some? ==> e.iid == iid && e.final.value < cfg.n && e.acks[e.final.value].Some?)
    {
      SlotOf(infos[..], cfg.n, currentIid, iid);
      assert Placed(infos[..][iid % infos.Length], cfg.n, iid % infos.Length, currentIid, infos.Length);
    }

    /** Stores a newer ack of the acceptor in an open instance; false when the ack is dropped. */
    method UpdateState(acc: nat, ack: Ack) returns (relevant: bool)
      requires Valid() && acc < cfg.n && currentIid <= ack.iid < currentIid + infos.Length
      modifies infos
      ensures Valid() && (relevant <==> Relevant(InstOf(cfg, old(Abs()), ack.iid), acc, ack))
      ensures !relevant ==> Abs() == old(Abs())
      ensures relevant ==>
        var acks := InstOf(cfg, old(Abs()), ack.iid).acks[acc := Some(ack)];
        && infos[ack.iid % infos.Length] == Info(ack.iid, ack.ballot, acks, None)
        && Abs() == old(Abs()).(insts := old(Abs()).insts[ack.iid := Inst(acks, None)])
    {
      hide View, AllPlaced;
      InfoFacts(ack.iid);
      var k := Index(ack.iid);
      var e := infos[k];
      relevant := false;
      if e.final.Some? {
        return;
      }
      if e.acks[acc].Some? && e.acks[acc].value.ballot >= ack.ballot {
        return;
      }
      SetInfo(Info(ack.iid, ack.ballot, e.acks[acc := Some(ack)], None));
      relevant := true;
    }

    /** Stores a relevant ack and marks the instance when that closes it. */
    method StoreAndCheck(acc: nat, ack: Ack) returns (relevant: bool, closed: bool)
      requires Valid() && acc < cfg.n && currentIid <= ack.iid < currentIid + infos.Length
      modifies infos
      ensures Valid() && |InstOf(cfg, old(Abs()), ack.iid).acks| == cfg.n
      ensures relevant <==> Relevant(InstOf(cfg, old(Abs()), ack.iid), acc, ack)
      ensures !relevant ==> Abs() == old(Abs())
      ensures relevant ==>
        var inst' := Store(cfg, InstOf(cfg, old(Abs()), ack.iid), acc, ack);
        Abs() == old(Abs()).(insts := old(Abs()).insts[ack.iid := inst']) && (closed <==> inst'.closing.Some?)
    {
      hide View, AllPlaced, Closing;
      InfoFacts(ack.iid);
      closed := false;
      relevant := UpdateState(acc, ack);
      if relevant {
        var k := Index(ack.iid);
        var closing := CheckQuorum(infos[k]);
        ClosingFacts(cfg, infos[k].acks, infos[k].lastBallot);
        SetInfo(infos[k].(final := closing));
        closed := closing.Some?;
      }
    }

    method HandleAcceptAck(acc: nat, ack: Ack)
      requires Valid() && acc < cfg.n
      modifies this, infos
      ensures Valid() && Abs() == HandleAck(cfg, old(Abs()), acc, ack)
    {
      hide View, AllPlaced, Deliver, Store;
      if ack.iid > highestSeen {
        highestSeen := ack.iid;
      }
      if ack.iid < currentIid || ack.iid >= currentIid + infos.Length {
        return;
      }
      var relevant, closed := StoreAndCheck(acc, ack);
      if !relevant || !closed {
        return;
      }
      if ack.iid > highestClosed {
        highestClosed := ack.iid;
      }
      if ack.iid == currentIid {
        DeliverNextClosed();
      }
    }

    method DeliverNextClosed()
      requires Valid()
      modifies this, infos
      ensures Valid() && Abs() == Deliver(old(Abs()))
    {
      hide View, AllPlaced, Deliver;
      var k := Index(currentIid);
      InfoFacts(currentIid);
      while infos[k].final.Some?
        invariant Valid() && k == currentIid % infos.Length && k < infos.Length
        invariant infos[k].final.Some? <==> HeadClosed(Abs())
        invariant Deliver(Abs()) == Deliver(old(Abs()))
        decreases |Abs().insts|
      {
        OneLess(Abs());
        DeliverStep(Abs());
        DeliverHead(k);
        k := Index(currentIid);
        InfoFacts(currentIid);
      }
      DeliverStep(Abs());
    }

    method DeliverHead(k: nat)
      requires Valid() && k == currentIid % infos.Length && infos[k].final.Some?
      modifies this, infos
      ensures Valid() && HeadClosed(old(Abs())) && Abs() == DeliverOne(old(Abs()))
    {
      hide View, AllPlaced;
      InfoFacts(currentIid);
      ViewNext(infos[..], cfg.n, currentIid);
      var e := infos[k];
      log := log + [e.acks[e.final.value].value];
      currentIid := currentIid + 1;
      infos[k] := Cleared(cfg.n);
      assert infos[..] == old(infos[..])[k := Cleared(cfg.n)];
    }

    /** One batch of acks of one acceptor. */
    method HandleAckBatch(acc: nat, acks: seq<Ack>)
      requires Valid() && acc < cfg.n
      modifies this, infos
      ensures Valid()
      ensures Abs() == HandleBatch(cfg, old(Abs()), acc, acks)
    {
      hide View, AllPlaced, HandleAck;
      var i := 0;
      while i < |acks|
        invariant i <= |acks| && Valid()
        invariant HandleBatch(cfg, Abs(), acc, acks[i..]) == HandleBatch(cfg, old(Abs()), acc, acks)
      {
        assert acks[i..][1..] == acks[i + 1..];
        HandleAcceptAck(acc, acks[i]);
        i := i + 1;
      }
    }
  }

  function HandleBatch(c: Config, s: State, acc: nat, acks: seq<Ack>): State
    requires acc < c.n && forall i :: i in s.insts ==> |s.insts[i].acks| == c.n
    decreases |acks|
  {
    if acks == [] then
      s
    else
      SizesKept(c, s, acc, acks[0]);
      HandleBatch(c, HandleAck(c, s, acc, acks[0]), acc, acks[1..])
  }

  lemma DeliverStep(s: State)
    ensures Deliver(s) == if HeadClosed(s) then Deliver(DeliverOne(s)) else s
  {
  }
}
