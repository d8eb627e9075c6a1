/** How far the leader's loops go and what its answers are, in numbers of instances and in messages. */
module LeaderLaws {
  import opened RingTypes
  import opened Modular
  import opened Ballots
  import opened LeaderRecord
  import opened DequeSpec
  import opened LeaderSpec
  import opened LeaderInv
  import opened LeaderTruth
  import A = AcceptorSpec
  import W = AcceptorLaws

  // ----- opening for phase 2 -----

  /** The next m instances can be given values in one call: neither the limit of a call nor that of active instances is
      exceeded, there are values, and phase 1 of all of them ended. */
  ghost predicate CanOpen(c: Config, l: Leader, m: nat)
    requires |l.slots| > 0
  {
    && m <= c.maxPerIteration && m <= c.maxActive - (l.highestOpen - l.highestClosed) && m <= |l.queue|
    && l.highestOpen + m <= l.p1HighestOpen
    && forall i :: l.highestOpen < i <= l.highestOpen + m ==> Slot(l, i).status == P1Done
  }

  lemma OpenOneIff(c: Config, l: Leader)
    requires LeaderOk(c, l)
    ensures |l.slots| > 0
    ensures OpenOne(c, l).Opened? <==>
      && l.highestOpen - l.highestClosed < c.maxActive && l.queue != [] && l.highestOpen < l.p1HighestOpen
      && Slot(l, l.highestOpen + 1).status == P1Done
    ensures OpenOne(c, l).Opened? ==>
      var o, i := OpenOne(c, l), l.highestOpen + 1;
      && o.mapping == Mapping(Key(c.id, c.incarnation, l.seqNumber), l.queue[0].data)
      && o.sends == [CmdMap(i, o.mapping.key, o.mapping.bytes), Phase2(i, Slot(l, i).ballot, 0, o.mapping.key)]
      && forall j :: i < j <= l.p1HighestOpen ==> Slot(o.leader, j) == Slot(l, j)
  {
    LeaderBounds(c, l);
    var i := l.highestOpen + 1;
    if l.highestOpen < l.p1HighestOpen {
      GetWithin(c, l, i);
      assert Band(l, Slot(l, i));
      if OpenOne(c, l).Opened? {
        forall j | i < j <= l.p1HighestOpen
          ensures Slot(OpenOne(c, l).leader, j) == Slot(l, j)
        {
          SlotsApart(i, j, |l.slots|) by { WindowFits(c, l); }
        }
      }
    }
  }

  lemma WindowFits(c: Config, l: Leader)
    requires LeaderOk(c, l)
    ensures l.p1HighestOpen < l.highestClosed + |l.slots| && l.highestClosed <= l.highestOpen
  {
  }

  /** The message pair of each assignment, in order. */
  ghost predicate PairsSent(l: Leader, mappings: seq<Mapping>, sends: seq<Msg>)
    requires |l.slots| > 0
  {
    && |sends| == 2 * |mappings|
    && forall j :: 0 <= j < |mappings| ==>
         && sends[2 * j] == CmdMap(l.highestOpen + 1 + j, mappings[j].key, mappings[j].bytes)
         && sends[2 * j + 1] == Phase2(l.highestOpen + 1 + j, Slot(l, l.highestOpen + 1 + j).ballot, 0, mappings[j].key)
  }

  lemma {:induction false} OpenPhase2Count(c: Config, l: Leader, count: nat)
    requires LeaderOk(c, l) && count < c.maxPerIteration
    ensures |l.slots| > 0 && OpenPhase2(c, l, count).Some?
    ensures var (l', sends, mappings) := OpenPhase2(c, l, count).value;
            && (forall m: nat :: m + count <= c.maxPerIteration ==> (CanOpen(c, l, m) <==> m <= |mappings|))
            && |mappings| + count <= c.maxPerIteration && PairsSent(l, mappings, sends)
    decreases |l.queue|
  {
    hide LeaderOk, OpenOne, Slot, CanOpen, PairsSent;
    LeaderBounds(c, l);
    OpenOneKeeps(c, l);
    OpenOneIff(c, l);
    OpenPhase2Keeps(c, l, count);
    CannotOpen(c, l);
    NonePaired(l);
    if OpenOne(c, l).Opened? {
      var o := OpenOne(c, l);
      LeaderBounds(c, o.leader);
      if count + 1 >= c.maxPerIteration {
        OpensNone(c, l);
        OpensNone(c, o.leader);
        OpensOneMore(c, l, 0);
        forall m: nat | m + count <= c.maxPerIteration
          ensures CanOpen(c, l, m) <==> m <= 1
        {
          assert m == 0 || m == 1;
        }
        NonePaired(o.leader);
        OnePaired(l, o.leader, o.mapping, o.sends, [], []);
        assert o.sends + [] == o.sends && [o.mapping] + [] == [o.mapping];
      } else {
        OpenPhase2Count(c, o.leader, count + 1);
        var (l2, sends2, mappings2) := OpenPhase2(c, o.leader, count + 1).value;
        OpenPhase2Keeps(c, o.leader, count + 1);
        LeaderBounds(c, l2);
        forall m: nat | m + count <= c.maxPerIteration
          ensures CanOpen(c, l, m) <==> m <= |mappings2| + 1
        {
          if m > 0 {
            OpensOneMore(c, l, m - 1);
          } else {
            OpensNone(c, l);
          }
        }
        OnePaired(l, o.leader, o.mapping, o.sends, mappings2, sends2);
      }
    }
  }

  lemma OpensNone(c: Config, l: Leader)
    requires LeaderOk(c, l) && |l.slots| > 0
    ensures CanOpen(c, l, 0)
  {
  }

  lemma CannotOpen(c: Config, l: Leader)
    requires LeaderOk(c, l) && |l.slots| > 0
    ensures CanOpen(c, l, 0)
    ensures !OpenOne(c, l).Opened? ==> forall m: nat :: m > 0 ==> !CanOpen(c, l, m)
  {
    OpenOneIff(c, l);
    hide OpenOne;
    if !OpenOne(c, l).Opened? {
      forall m: nat | m > 0
        ensures !CanOpen(c, l, m)
      {
        assert l.highestOpen + 1 <= l.highestOpen + m;
      }
    }
  }

  lemma OpensOneMore(c: Config, l: Leader, m: nat)
    requires LeaderOk(c, l) && |l.slots| > 0 && OpenOne(c, l).Opened? && |OpenOne(c, l).leader.slots| > 0
    requires m < c.maxPerIteration
    ensures CanOpen(c, l, m + 1) <==> CanOpen(c, OpenOne(c, l).leader, m)
  {
    OpenOneIff(c, l);
    OpenOneKeeps(c, l);
    hide OpenOne, Slot, LeaderOk;
    var l1 := OpenOne(c, l).leader;
    if CanOpen(c, l1, m) {
      forall i | l.highestOpen < i <= l.highestOpen + m + 1
        ensures Slot(l, i).status == P1Done
      {
        if i > l.highestOpen + 1 {
          assert Slot(l1, i).status == P1Done;
        }
      }
    }
  }

  lemma NonePaired(l: Leader)
    requires |l.slots| > 0
    ensures PairsSent(l, [], [])
  {
  }

  lemma OnePaired(l: Leader, l1: Leader, mapping: Mapping, first: seq<Msg>, mappings: seq<Mapping>, sends: seq<Msg>)
    requires |l.slots| > 0 && |l1.slots| > 0 && l1.highestOpen == l.highestOpen + 1 && PairsSent(l1, mappings, sends)
    requires first == [CmdMap(l.highestOpen + 1, mapping.key, mapping.bytes),
                       Phase2(l.highestOpen + 1, Slot(l, l.highestOpen + 1).ballot, 0, mapping.key)]
    requires forall j :: l1.highestOpen < j <= l1.highestOpen + |mappings| ==> Slot(l1, j) == Slot(l, j)
    ensures PairsSent(l, [mapping] + mappings, first + sends)
  {
    hide Slot;
    var all, both := [mapping] + mappings, first + sends;
    forall j | 0 <= j < |all|
      ensures both[2 * j] == CmdMap(l.highestOpen + 1 + j, all[j].key, all[j].bytes)
      ensures both[2 * j + 1] == Phase2(l.highestOpen + 1 + j, Slot(l, l.highestOpen + 1 + j).ballot, 0, all[j].key)
    {
      if j > 0 {
        assert both[2 * j] == sends[2 * (j - 1)] && both[2 * j + 1] == sends[2 * (j - 1) + 1];
        assert Slot(l1, l1.highestOpen + j) == Slot(l, l1.highestOpen + j);
      }
    }
  }

  /** One call of the loop gives values to as many instances as it can: the largest number within the limit of a call,
      the room of active instances, the queued values, and the instances in a row whose phase 1 ended. It sends the
      mapping and the phase 2 message of each, in order. */
  lemma OpenPhase2Exactly(c: Config, l: Leader)
    requires LeaderOk(c, l)
    ensures |l.slots| > 0 && OpenPhase2(c, l, 0).Some?
    ensures var (l', sends, mappings) := OpenPhase2(c, l, 0).value;
            && (forall m: nat :: CanOpen(c, l, m) <==> m <= |mappings|)
            && PairsSent(l, mappings, sends)
  {
    hide LeaderOk, OpenPhase2, PairsSent;
    LeaderBounds(c, l);
    OpenPhase2Count(c, l, 0);
    forall m: nat | m > c.maxPerIteration
      ensures !CanOpen(c, l, m)
    {
    }
  }

  // ----- opening for phase 1 -----

  /** When less than a quarter of the preexecution window is open ahead, as many instances are opened as make the ready
      and the newly opened ones together the window less the ready ones; otherwise none. Each waits for phase 1 at the
      leader's first ballot, one range message asks for all, and no other record changes. */
  lemma OpenPhase1Exactly(c: Config, l: Leader)
    requires LeaderOk(c, l)
    ensures |l.slots| > 0 && OpenPhase1(c, l).Some?
    ensures var (l', sends) := OpenPhase1(c, l).value;
            var ready, b := l.p1HighestOpen - l.highestOpen, MakeFirstBallot(c.id, c.incarnation);
            if 2 * ready >= c.preexec / 2 then l' == l && sends == []
            else && |l'.slots| == |l.slots| && l'.p1HighestOpen - l'.highestOpen == c.preexec - ready
                 && sends == [Phase1Range(l.p1HighestOpen + 1, l'.p1HighestOpen, b, 0)]
                 && (forall i :: l.p1HighestOpen < i <= l'.p1HighestOpen ==> Slot(l', i) == MRec(i, P1Pending, b, NULL_KEY, None))
                 && (forall i :: l.highestClosed < i <= l.p1HighestOpen ==> Slot(l', i) == Slot(l, i))
  {
    hide LeaderOk, PrepareRange, MakeFirstBallot, Slot;
    LeaderBounds(c, l);
    OpenPhase1Keeps(c, l);
    var active := ActiveCount(l);
    if active < c.preexec / 2 {
      var b, last := MakeFirstBallot(c.id, c.incarnation), l.p1HighestOpen + (c.preexec - active);
      var l' := OpenPhase1(c, l).value.0;
      OpenPhase1Size(c, l);
      LeaderBounds(c, l');
      FirstBallotPositive(c);
      PrepareRest(l, l.p1HighestOpen + 1, last, b);
      PreparedAll(c, l, last, b);
      SameSlots(PrepareRange(l, l.p1HighestOpen + 1, last, b).value, l');
    }
  }

  lemma SameSlots(l: Leader, l': Leader)
    requires l.slots == l'.slots && |l.slots| > 0
    ensures forall i: nat :: Slot(l, i) == Slot(l', i)
  {
  }

  lemma {:induction false} PreparedAll(c: Config, l: Leader, last: nat, b: nat)
    requires LeaderOk(c, l) && 0 < b < WORD32 && l.p1HighestOpen <= last && last - l.highestOpen <= c.preexec
    ensures PrepareRange(l, l.p1HighestOpen + 1, last, b).Some? && |l.slots| > 0
    ensures var l' := PrepareRange(l, l.p1HighestOpen + 1, last, b).value;
            && |l'.slots| == |l.slots|
            && (forall i :: l.p1HighestOpen < i <= last ==> Slot(l', i) == MRec(i, P1Pending, b, NULL_KEY, None))
            && (forall i :: l.highestClosed < i <= l.p1HighestOpen ==> Slot(l', i) == Slot(l, i))
    decreases last - l.p1HighestOpen
  {
    hide LeaderOk, Get, Slot, SetSlot;
    LeaderBounds(c, l);
    if l.p1HighestOpen < last {
      var i := l.p1HighestOpen + 1;
      OpenNext(c, l, b);
      PrepareUnfolds(l, last, b);
      var l1 := SetSlot(l, Prepared(i, b));
      OneMoreSlots(c, l, b);
      PreparedAll(c, OneMore(l, b), last, b);
      PrepareIgnores(l1, i + 1, last, b, i, l.p1Ready + 1);
      SameSlots(PrepareRange(l1, i + 1, last, b).value, PrepareRange(OneMore(l, b), i + 1, last, b).value);
    }
  }

  lemma PrepareUnfolds(l: Leader, last: nat, b: nat)
    requires |l.slots| > 0 && l.p1HighestOpen < last
    requires Get(l, l.p1HighestOpen + 1) == Some(SetSlot(l, ReadyRec(l.p1HighestOpen + 1)))
    ensures var i := l.p1HighestOpen + 1;
            PrepareRange(l, i, last, b) == PrepareRange(SetSlot(l, Prepared(i, b)), i + 1, last, b)
  {
    var i := l.p1HighestOpen + 1;
    assert SetSlot(SetSlot(l, ReadyRec(i)), Prepared(i, b)) == SetSlot(l, Prepared(i, b));
    assert Slot(SetSlot(l, ReadyRec(i)), i) == ReadyRec(i);
  }

  lemma OneMoreSlots(c: Config, l: Leader, b: nat)
    requires LeaderOk(c, l) && l.p1Ready < c.preexec && |l.slots| > 0
    ensures |OneMore(l, b).slots| == |l.slots| && OneMore(l, b).highestOpen == l.highestOpen
    ensures OneMore(l, b).p1HighestOpen == l.p1HighestOpen + 1 && OneMore(l, b).highestClosed == l.highestClosed
    ensures OneMore(l, b) == Moved(SetSlot(l, Prepared(l.p1HighestOpen + 1, b)), l.p1HighestOpen + 1, l.p1Ready + 1)
    ensures Slot(OneMore(l, b), l.p1HighestOpen + 1) == Prepared(l.p1HighestOpen + 1, b)
    ensures forall i :: l.highestClosed < i <= l.p1HighestOpen ==> Slot(OneMore(l, b), i) == Slot(l, i)
  {
    NextWindow(c, l, b);
    forall i | l.highestClosed < i <= l.p1HighestOpen
      ensures Slot(OneMore(l, b), i) == Slot(l, i)
    {
      NextSlotFree(c, l, i);
    }
  }

  // ----- timeouts -----

  /** What a timeout of the instance sends again: its phase 1 request, or its mapping and its phase 2 request. */
  predicate IsRepeat(r: MRec, m: Msg) {
    || (r.status == P1Pending && m == NewPhase1(r.inst, r.ballot, 0))
    || (r.status == P2Pending && r.value.Some? && m == CmdMap(r.inst, r.key, r.value.value))
    || (r.status == P2Pending && m == Phase2(r.inst, r.ballot, 0, r.key))
  }

  /** The check sends exactly the repetitions of the instances whose timeout expired, and changes nothing. */
  lemma {:induction false} CheckExpiredExactly(c: Config, l: Leader, i: nat, last: nat, expired: set<nat>, m: Msg)
    requires LeaderOk(c, l) && l.highestClosed < i && last <= l.p1HighestOpen
    ensures |l.slots| > 0 && CheckExpired(l, i, last, expired).Some? && CheckExpired(l, i, last, expired).value.0 == l
    ensures m in CheckExpired(l, i, last, expired).value.1 <==>
      exists j :: i <= j <= last && j in expired && IsRepeat(Slot(l, j), m)
    decreases last + 1 - i
  {
    hide LeaderOk, Slot, Get, IsRepeat;
    LeaderBounds(c, l);
    CheckExpiredKeeps(c, l, i, last, expired);
    if i <= last {
      CheckExpiredExactly(c, l, i + 1, last, expired, m);
      GetWithin(c, l, i) by { OkIsCore(c, l); }
      RepeatsAre(l, Slot(l, i), m, i in expired);
      var rest := CheckExpired(l, i + 1, last, expired).value.1;
      assert CheckExpired(l, i, last, expired).value.1 == Repeats(Slot(l, i), i in expired) + rest;
    }
  }

  lemma OkIsCore(c: Config, l: Leader)
    requires LeaderOk(c, l)
    ensures Core(c, l)
  {
  }

  lemma RepeatsAre(l: Leader, r: MRec, m: Msg, expired: bool)
    requires r.status == P2Pending ==> r.value.Some?
    ensures m in Repeats(r, expired) <==> expired && IsRepeat(r, m)
  {
  }

  // ----- answers to phase 1 -----

  /** A range answer with enough promises ends phase 1 of every instance of the range and of no other, silently; with
      too few promises the range is asked for again and nothing changes. Another leader's range is ignored. */
  lemma RangeAnswerExactly(c: Config, l: Leader, m: Msg)
    requires LeaderOk(c, l) && m.Phase1Range? && m.to <= l.p1HighestOpen
    requires |l.slots| > 0 && HandlePhase1Range(c, l, m).Some?
    ensures var (l', sends) := HandlePhase1Range(c, l, m).value;
            if !IsMyBallot(m.ballot, c.id, c.incarnation) then l' == l && sends == []
            else if m.promises < c.quorum then l' == l && sends == [Phase1Range(m.from, m.to, m.ballot, 0)]
            else && sends == [] && |l'.slots| == |l.slots|
                 && forall i :: l.highestClosed < i <= l.p1HighestOpen ==>
                      Slot(l', i) == if m.from <= i <= m.to then Slot(l, i).(status := P1Done) else Slot(l, i)
  {
    hide LeaderOk, IsMyBallot, Slot, FinishRange;
    if m.promises >= c.quorum && IsMyBallot(m.ballot, c.id, c.incarnation) {
      FinishRangeSlots(c, l, m.from, m.to);
    }
  }

  lemma {:induction false} FinishRangeSlots(c: Config, l: Leader, from: nat, last: nat)
    requires LeaderOk(c, l) && l.highestClosed < from && last <= l.p1HighestOpen && |l.slots| > 0
    requires FinishRange(l, from, last).Some?
    ensures |FinishRange(l, from, last).value.slots| == |l.slots|
    ensures forall i :: l.highestClosed < i <= l.p1HighestOpen ==>
      Slot(FinishRange(l, from, last).value, i) == if from <= i <= last then Slot(l, i).(status := P1Done) else Slot(l, i)
    decreases last + 1 - from
  {
    hide LeaderOk, Slot, SetSlot;
    if from <= last {
      LeaderBounds(c, l);
      GetOk(c, l, from);
      var l1 := SetSlot(l, OnRange(Slot(l, from)).value);
      OneDone(c, l, from);
      FinishRangeSlots(c, l1, from + 1, last);
    }
  }

  lemma OneDone(c: Config, l: Leader, i: nat)
    requires LeaderOk(c, l) && l.highestClosed < i <= l.p1HighestOpen && |l.slots| > 0 && Slot(l, i).status == P1Pending
    ensures var l1 := SetSlot(l, Slot(l, i).(status := P1Done));
            && LeaderOk(c, l1) && |l1.slots| == |l.slots| && l1 == l.(slots := l1.slots)
            && forall j :: l.highestClosed < j <= l.p1HighestOpen ==>
                 Slot(l1, j) == if j == i then Slot(l, i).(status := P1Done) else Slot(l, j)
  {
    GetWithin(c, l, i);
    var r := Slot(l, i).(status := P1Done);
    FinishRangeKeeps(c, l, i, i);
    assert FinishRange(l, i, i) == Some(SetSlot(l, r));
    WindowFits(c, l);
    forall j | l.highestClosed < j <= l.p1HighestOpen && j != i
      ensures Slot(SetSlot(l, r), j) == Slot(l, j)
    {
      if i < j {
        SlotsApart(i, j, |l.slots|);
      } else {
        SlotsApart(j, i, |l.slots|);
      }
    }
  }

  /** Only the answer to the round in progress counts. With too few promises phase 1 starts again, above the highest
      refusal if there was one; otherwise phase 1 ends, and a leader that has a command starts phase 2 with the reported
      command, or with its own if none is reported. A client value that gives way to another one goes back. */
  lemma Phase1AnswerExactly(quorum: nat, r: MRec, m: Msg)
    requires m.Phase1? && m.inst == r.inst
    ensures var reply := OnPhase1(quorum, r, m);
            if r.status != P1Pending || r.ballot != m.ballot then
              reply.rec == r && reply.sends == [] && reply.back.None?
            else if m.promises < quorum then
              && reply.rec.status == P1Pending && reply.rec.value == r.value && reply.back.None?
              && reply.sends == [NewPhase1(r.inst, reply.rec.ballot, 0)]
              && reply.rec.ballot == if m.highestPromised == 0 then r.ballot else RaiseBallot(r.ballot, m.highestPromised)
            else if r.value.None? then
              reply.rec == r.(status := P1Done) && reply.sends == [] && reply.back.None?
            else
              var foreign := m.highestAccepted > 0 && m.key != r.key;
              && reply.rec == MRec(r.inst, P2Pending, r.ballot, if foreign then m.key else r.key,
                                   if foreign then Some(m.bytes) else r.value)
              && reply.sends == [Phase2(r.inst, r.ballot, 0, reply.rec.key)]
              && reply.back == if foreign && m.bytes != r.value.value then r.value else None
  {
  }

  /** What the leader does with the reply: it takes over the record, sends the messages and gives the value back; an
      answer on a closed instance or at the ballot of another leader does nothing. */
  lemma HandlePhase1Exactly(c: Config, l: Leader, m: Msg)
    requires LeaderOk(c, l) && m.Phase1? && m.inst <= l.p1HighestOpen
    ensures |l.slots| > 0 && HandlePhase1(c, l, m).Some?
    ensures var (l', sends) := HandlePhase1(c, l, m).value;
            if m.inst <= l.highestClosed || !IsMyBallot(m.ballot, c.id, c.incarnation) then l' == l && sends == []
            else var reply := OnPhase1(c.quorum, Slot(l, m.inst), m);
                 && sends == reply.sends && |l'.slots| == |l.slots| && l'.queue == GiveBack(c, l, reply.back).queue
                 && forall i :: l.highestClosed < i <= l.p1HighestOpen ==>
                      Slot(l', i) == if i == m.inst then reply.rec else Slot(l, i)
  {
    hide LeaderOk, IsMyBallot, Slot, SetSlot, OnPhase1;
    LeaderBounds(c, l);
    if m.inst > l.highestClosed && IsMyBallot(m.ballot, c.id, c.incarnation) {
      OkIsCore(c, l);
      GetWithin(c, l, m.inst);
      ReplySlots(c, l, m);
    }
  }

  lemma ReplySlots(c: Config, l: Leader, m: Msg)
    requires LeaderOk(c, l) && m.Phase1? && l.highestClosed < m.inst <= l.p1HighestOpen && |l.slots| > 0
    ensures var reply := OnPhase1(c.quorum, Slot(l, m.inst), m);
            var l' := GiveBack(c, SetSlot(l, reply.rec), reply.back);
            && |l'.slots| == |l.slots| && l'.queue == GiveBack(c, l, reply.back).queue
            && forall i :: l.highestClosed < i <= l.p1HighestOpen ==>
                 Slot(l', i) == if i == m.inst then reply.rec else Slot(l, i)
  {
    GetWithin(c, l, m.inst);
    WindowFits(c, l);
    var r := OnPhase1(c.quorum, Slot(l, m.inst), m).rec;
    assert r.inst == m.inst;
    forall i | l.highestClosed < i <= l.p1HighestOpen && i != m.inst
      ensures i % |l.slots| != m.inst % |l.slots|
    {
      if m.inst < i {
        SlotsApart(m.inst, i, |l.slots|);
      } else {
        SlotsApart(i, m.inst, |l.slots|);
      }
    }
  }

  /** The value that goes back is the first to be given out again; a full queue loses its last value for it. */
  lemma GivenBackIsNext(c: Config, l: Leader, value: Bytes)
    ensures var q := GiveBack(c, l, Some(value)).queue;
            && q != [] && q[0].data == value && q[0].size == |value| && GiveBack(c, l, Some(value)) == l.(queue := q)
            && q[1..] == if |l.queue| == c.queueLength && l.queue != [] then l.queue[..|l.queue| - 1] else l.queue
    ensures GiveBack(c, l, None) == l
  {
  }

  /** Phase 1 takes at most two rounds when nothing else happens on the ring: refused once, the leader comes back with
      a ballot above every promise. */
  lemma TwoRounds(quorum: nat, r: MRec, accs: seq<A.Acceptor>)
    requires 0 < quorum <= |accs| && r.inst > 0 && 0 < r.ballot < WORD32 && r.status == P1Pending
    requires W.Able(accs, r.inst)
    requires forall k :: 0 <= k < |accs| ==> W.Records(accs, r.inst)[k].ballot < WORD32
    ensures W.GoRound(accs, |accs|, Phase1Msg(r)).Some?
    ensures var t := W.GoRound(accs, |accs|, Phase1Msg(r)).value;
            var reply := OnPhase1(quorum, r, t.msg);
            || reply.rec.status != P1Pending
            || Seq(t.msg.highestPromised) >= 0xFFFF
            || (&& reply.sends == [Phase1Msg(reply.rec)] && W.Able(t.accs, r.inst)
                && var t2 := W.GoRound(t.accs, |accs|, Phase1Msg(reply.rec));
                   t2.Some? && OnPhase1(quorum, reply.rec, t2.value.msg).rec.status != P1Pending)
  {
    hide RaiseBallot, Seq, W.GoRound, W.Able, W.Records;
    W.SecondRoundIsGranted(accs, r.inst, r.ballot);
  }

  // ----- answers to phase 2 -----

  /** An answer to the round in progress closes the instance and announces its key, or starts the round again; any
      other answer does nothing. */
  lemma Phase2AnswerExactly(quorum: nat, r: MRec, m: Msg)
    requires m.Phase2? && OnPhase2(quorum, r, m).Some? && (r.status == P2Pending ==> r.value.Some?)
    ensures var reply := OnPhase2(quorum, r, m).value;
            && reply.back.None?
            && (if r.status != P2Pending || r.ballot != m.ballot then reply.rec == r && reply.sends == []
                else if m.accepts < quorum then
                  reply.rec == r && reply.sends == [CmdMap(r.inst, r.key, r.value.value), Phase2(r.inst, r.ballot, 0, r.key)]
                else reply.rec == r.(status := Done) && reply.sends == [Acceptance(r.inst, m.key)])
  {
  }

  /** What the leader does with the reply: the messages are the reply's; it changes nothing unless the instance is
      closed, and then the instance is below the closed bound or its record is done. */
  lemma HandlePhase2Exactly(c: Config, l: Leader, m: Msg)
    requires LeaderOk(c, l) && m.Phase2? && m.inst <= l.p1HighestOpen && |l.slots| > 0 && HandlePhase2(c, l, m).Some?
    ensures m.inst <= l.highestClosed ==> HandlePhase2(c, l, m).value == (l, [])
    ensures m.inst > l.highestClosed ==>
      && OnPhase2(c.quorum, Slot(l, m.inst), m).Some?
      && var (l', sends) := HandlePhase2(c, l, m).value;
         && sends == OnPhase2(c.quorum, Slot(l, m.inst), m).value.sends && |l'.slots| == |l.slots|
         && (if sends == [Acceptance(m.inst, m.key)] then
               m.inst <= l'.highestClosed || Slot(l', m.inst) == Slot(l, m.inst).(status := Done)
             else l' == l)
  {
    hide LeaderOk, AdvanceClosed, Core, SetSlot;
    if m.inst > l.highestClosed {
      OkIsCore(c, l);
      GetWithin(c, l, m.inst);
      var r := Slot(l, m.inst);
      SameRecordSet(l, m.inst);
      if r.status == P2Pending && r.ballot == m.ballot && m.accepts >= c.quorum {
        PendingIsOpen(c, l, m.inst);
        DoneKeepsCore(c, l, m.inst);
        ClosedOrDone(c, SetSlot(l, r.(status := Done)), l, m.inst);
      }
    }
  }

  lemma PendingIsOpen(c: Config, l: Leader, i: nat)
    requires LeaderOk(c, l) && l.highestClosed < i <= l.p1HighestOpen && |l.slots| > 0 && Slot(l, i).status == P2Pending
    ensures i <= l.highestOpen && Slot(l, i).value.Some?
  {
    GetWithin(c, l, i);
  }

  lemma ClosedOrDone(c: Config, l1: Leader, l: Leader, i: nat)
    requires |l.slots| > 0 && Core(c, l1) && l1 == SetSlot(l, Slot(l, i).(status := Done)) && Slot(l, i).inst == i
    requires l.highestClosed < i <= l.p1HighestOpen
    ensures AdvanceClosed(l1).Some? && |AdvanceClosed(l1).value.slots| == |l.slots|
    ensures i <= AdvanceClosed(l1).value.highestClosed || Slot(AdvanceClosed(l1).value, i) == Slot(l, i).(status := Done)
  {
    hide AdvanceClosed;
    AdvanceSlots(c, l1);
    AdvanceKeeps(c, l1);
    var l2 := AdvanceClosed(l1).value;
    if l2.highestClosed < i {
      GetWithin(c, l2, i);
    }
  }

  lemma SameRecordSet(l: Leader, inst: nat)
    requires |l.slots| > 0 && Slot(l, inst).inst == inst
    ensures SetSlot(l, Slot(l, inst)) == l
  {
    assert l.slots[inst % |l.slots| := Slot(l, inst)] == l.slots;
  }

  // ----- requests of learners -----

  /** A request is answered for its instance: with the mapping when it was not sent too recently, with the chosen key
      when the instance is done. */
  lemma RequestsExactly(l: Leader, inst: nat, repeat: bool)
    requires |l.slots| > 0 && Slot(l, inst).inst == inst > 0 && Slot(l, inst).value.Some?
    ensures HandleMapRequest(l, inst, repeat) ==
      Some((l, if repeat then [CmdMap(inst, Slot(l, inst).key, Slot(l, inst).value.value)] else []))
    ensures HandleChosenRequest(l, inst) ==
      Some((l, if Slot(l, inst).status == Done then [Acceptance(inst, Slot(l, inst).key)] else []))
  {
  }
}
