/** The leader's window and status bands, kept by every handler. */
module LeaderInv {
  import opened RingTypes
  import opened Modular
  import opened Ballots
  import opened LeaderRecord
  import opened DequeSpec
  import opened LeaderSpec

  /** closed <= open <= phase-1-open, with the distances the configuration allows. */
  predicate Window(c: Config, l: Leader) {
    && l.highestClosed <= l.highestOpen <= l.p1HighestOpen
    && l.p1Ready == l.p1HighestOpen - l.highestOpen <= c.preexec
    && l.highestOpen - l.highestClosed <= c.maxActive
  }

  /** What the position of an instance in the window says about its record. */
  predicate Band(l: Leader, r: MRec) {
    if r.inst <= l.highestClosed then
      r.status == Done && r.value.Some? && 0 < r.ballot < WORD32
    else if r.inst <= l.highestOpen then
      (r.status == P2Pending || r.status == Done) && r.value.Some? && 0 < r.ballot < WORD32
    else if r.inst <= l.p1HighestOpen then
      (r.status == P1Pending || r.status == P1Done) && r.value.None? && 0 < r.ballot < WORD32
    else
      r.inst == l.p1HighestOpen + 1 == l.highestClosed + 1 && r == ReadyRec(r.inst)
  }

  predicate SlotOk(l: Leader, k: nat)
    requires k < |l.slots|
  {
    var r := l.slots[k];
    if r.inst == 0 then r == CLEARED else r.inst % |l.slots| == k && Band(l, r)
  }

  ghost predicate Slots(c: Config, l: Leader) {
    && |l.slots| == 2 * c.workingSet
    && forall k :: 0 <= k < |l.slots| ==> SlotOk(l, k)
  }

  /** Every unfinished instance still has its record; a closed one has it until a later instance takes the slot. */
  ghost predicate Present(l: Leader)
    requires |l.slots| > 0
  {
    && (forall i :: l.highestClosed < i <= l.p1HighestOpen ==> Slot(l, i).inst == i)
    && (forall i :: 0 < i <= l.p1HighestOpen ==> Slot(l, i).inst >= i)
  }

  /** The first unfinished instance is not done: the closed bound is as high as it can be. */
  predicate HeadOpen(l: Leader)
    requires |l.slots| > 0
  {
    l.highestClosed < l.highestOpen ==> Slot(l, l.highestClosed + 1).status != Done
  }

  ghost predicate Core(c: Config, l: Leader) {
    ValidConfig(c) && Window(c, l) && Slots(c, l) && Present(l)
  }

  ghost predicate LeaderOk(c: Config, l: Leader) {
    Core(c, l) && HeadOpen(l)
  }

  lemma InitOk(c: Config)
    requires ValidConfig(c)
    ensures LeaderOk(c, InitLeader(c))
  {
  }

  // ----- the store -----

  /** Asking for an instance of the window, or for the next one, never fails an assertion of the store: what
      its slot held before is the instance itself, nothing, or an instance that is done. */
  lemma GetWithin(c: Config, l: Leader, inst: nat)
    requires Core(c, l) && l.highestClosed < inst <= l.p1HighestOpen
    ensures Get(l, inst) == Some(l) && Slot(l, inst).inst == inst && Band(l, Slot(l, inst))
  {
    assert SlotOk(l, inst % |l.slots|);
  }

  lemma GetNext(c: Config, l: Leader)
    requires Core(c, l) && l.p1HighestOpen < l.highestClosed + c.workingSet
    ensures Get(l, l.p1HighestOpen + 1).Some?
    ensures Get(l, l.p1HighestOpen + 1).value == SetSlot(l, ReadyRec(l.p1HighestOpen + 1))
  {
    var i, n := l.p1HighestOpen + 1, |l.slots|;
    var r := Slot(l, i);
    assert SlotOk(l, i % n);
    if r.inst != 0 && r.inst != i {
      SameSlot(r.inst, i, n);
    }
  }

  lemma NextSlotFree(c: Config, l: Leader, i: nat)
    requires Core(c, l) && l.highestClosed < i <= l.p1HighestOpen < l.highestClosed + c.workingSet
    ensures i % |l.slots| != (l.p1HighestOpen + 1) % |l.slots|
  {
    if i % |l.slots| == (l.p1HighestOpen + 1) % |l.slots| {
      SameSlot(i, l.p1HighestOpen + 1, |l.slots|);
    }
  }

  lemma SlotAfter(l: Leader, r: MRec, i: nat)
    requires |l.slots| > 0
    ensures Slot(SetSlot(l, r), i) == if i % |l.slots| == r.inst % |l.slots| then r else Slot(l, i)
  {
  }

  lemma SlotsAfter(c: Config, l: Leader, r: MRec)
    requires Slots(c, l) && |l.slots| > 0 && Band(l, r) && r.inst > 0
    ensures Slots(c, SetSlot(l, r))
  {
    var l' := SetSlot(l, r);
    forall k | 0 <= k < |l'.slots|
      ensures SlotOk(l', k)
    {
      assert SlotOk(l, k);
    }
  }

  lemma PresentAfter(l: Leader, r: MRec)
    requires |l.slots| > 0 && Present(l) && l.highestClosed < r.inst <= l.p1HighestOpen
    ensures Present(SetSlot(l, r))
  {
    hide Slot;
    forall i | 0 < i <= l.p1HighestOpen
      ensures Slot(SetSlot(l, r), i).inst >= i && (l.highestClosed < i ==> Slot(SetSlot(l, r), i).inst == i)
    {
      SlotAfter(l, r, i);
      SameRecord(l, i, r.inst);
      assert Slot(l, i).inst >= i && (l.highestClosed < i ==> Slot(l, i).inst == i);
      assert Slot(l, r.inst).inst == r.inst;
    }
  }

  /** The record of the next instance takes the slot of a closed instance or of none. */
  lemma PresentNext(c: Config, l: Leader, r: MRec)
    requires Core(c, l) && l.p1HighestOpen < l.highestClosed + c.workingSet && r.inst == l.p1HighestOpen + 1
    ensures Present(SetSlot(l, r)) && Slot(SetSlot(l, r), r.inst) == r
    ensures l.highestClosed < l.p1HighestOpen ==>
      Slot(SetSlot(l, r), l.highestClosed + 1) == Slot(l, l.highestClosed + 1)
  {
    hide Slot, SlotOk, Window;
    SlotAfter(l, r, r.inst);
    forall i | 0 < i <= l.p1HighestOpen
      ensures Slot(SetSlot(l, r), i).inst >= i
      ensures l.highestClosed < i ==> Slot(SetSlot(l, r), i) == Slot(l, i) && Slot(l, i).inst == i
    {
      SlotAfter(l, r, i);
      assert Slot(l, i).inst >= i && (l.highestClosed < i ==> Slot(l, i).inst == i);
      if l.highestClosed < i {
        NextSlotFree(c, l, i);
      }
    }
  }

  lemma SameRecord(l: Leader, i: nat, j: nat)
    requires |l.slots| > 0
    ensures i % |l.slots| == j % |l.slots| ==> Slot(l, i) == Slot(l, j)
  {
  }

  /** Replacing the record of an instance of the window by one that fits its band. */
  lemma SetWithin(c: Config, l: Leader, r: MRec)
    requires Core(c, l) && l.highestClosed < r.inst <= l.p1HighestOpen && Band(l, r)
    ensures Core(c, SetSlot(l, r))
  {
    hide SlotOk, Present, Band;
    SlotsAfter(c, l, r);
    PresentAfter(l, r);
  }

  // ----- opening instances for phase 1 -----

  function Prepared(inst: nat, b: nat): MRec {
    ReadyRec(inst).(status := P1Pending, ballot := b)
  }

  /** The leader after one round of the loop, with its counters already moved. */
  function OneMore(l: Leader, b: nat): Leader
    requires |l.slots| > 0
  {
    SetSlot(l, Prepared(l.p1HighestOpen + 1, b)).(p1HighestOpen := l.p1HighestOpen + 1, p1Ready := l.p1Ready + 1)
  }

  lemma OpenNext(c: Config, l: Leader, b: nat)
    requires LeaderOk(c, l) && l.p1Ready < c.preexec && 0 < b < WORD32
    ensures Get(l, l.p1HighestOpen + 1) == Some(SetSlot(l, ReadyRec(l.p1HighestOpen + 1)))
    ensures LeaderOk(c, OneMore(l, b))
  {
    hide Slots, Present, HeadOpen, Slot, Get, Window, ValidConfig, Prepared;
    LeaderBounds(c, l);
    var r := Prepared(l.p1HighestOpen + 1, b);
    NextWindow(c, l, b);
    GetNext(c, l);
    NextSlotsOk(c, l, b);
    PresentNext(c, l, r);
    NextCounters(l, SetSlot(l, r), r, l.p1Ready + 1);
  }

  lemma NextWindow(c: Config, l: Leader, b: nat)
    requires ValidConfig(c) && Window(c, l) && l.p1Ready < c.preexec && |l.slots| > 0
    ensures Window(c, OneMore(l, b)) && l.highestOpen <= l.p1HighestOpen < l.highestClosed + c.workingSet
    ensures Prepared(l.p1HighestOpen + 1, b).inst == l.p1HighestOpen + 1
  {
  }

  lemma NextSlotsOk(c: Config, l: Leader, b: nat)
    requires Core(c, l) && 0 < b < WORD32
    ensures Slots(c, OneMore(l, b))
  {
    var l' := OneMore(l, b);
    forall k | 0 <= k < |l'.slots|
      ensures SlotOk(l', k)
    {
      assert SlotOk(l, k);
    }
  }

  /** Moving the phase-1 bound over a record that is in place. */
  lemma NextCounters(l: Leader, l1: Leader, r: MRec, ready: nat)
    requires |l.slots| > 0 && l1 == l.(slots := l1.slots) && |l1.slots| > 0 && Present(l1)
    requires r.inst == l.p1HighestOpen + 1 && Slot(l1, r.inst) == r && l.highestOpen <= l.p1HighestOpen
    requires l.highestClosed < l.p1HighestOpen ==> Slot(l1, l.highestClosed + 1) == Slot(l, l.highestClosed + 1)
    ensures Present(l1.(p1HighestOpen := r.inst, p1Ready := ready))
    ensures HeadOpen(l) ==> HeadOpen(l1.(p1HighestOpen := r.inst, p1Ready := ready))
  {
    var l2 := l1.(p1HighestOpen := r.inst, p1Ready := ready);
    forall i | 0 < i <= r.inst
      ensures Slot(l2, i).inst >= i && (l.highestClosed < i ==> Slot(l2, i).inst == i)
    {
      assert Slot(l2, i) == Slot(l1, i);
    }
    assert Slot(l2, l.highestClosed + 1) == Slot(l1, l.highestClosed + 1);
  }

  lemma {:induction false} PrepareRangeKeeps(c: Config, l: Leader, last: nat, b: nat)
    requires LeaderOk(c, l) && 0 < b < WORD32 && l.p1HighestOpen <= last && last - l.highestOpen <= c.preexec
    ensures PrepareRange(l, l.p1HighestOpen + 1, last, b).Some?
    ensures LeaderOk(c, PrepareRange(l, l.p1HighestOpen + 1, last, b).value.(p1HighestOpen := last, p1Ready := last - l.highestOpen))
    decreases last - l.p1HighestOpen
  {
    hide LeaderOk, Get;
    LeaderBounds(c, l);
    if l.p1HighestOpen == last {
      assert l.(p1HighestOpen := last, p1Ready := last - l.highestOpen) == l;
    } else {
      var i := l.p1HighestOpen + 1;
      OpenNext(c, l, b);
      var l1 := SetSlot(l, Prepared(i, b));
      assert PrepareRange(l, i, last, b) == PrepareRange(l1, i + 1, last, b) by {
        hide LeaderOk;
        assert SetSlot(SetSlot(l, ReadyRec(i)), Prepared(i, b)) == l1;
        assert Slot(SetSlot(l, ReadyRec(i)), i) == ReadyRec(i);
      }
      PrepareRangeKeeps(c, OneMore(l, b), last, b);
      PrepareIgnores(l1, i + 1, last, b, i, l.p1Ready + 1);
    }
  }

  function Moved(l: Leader, h: nat, ready: nat): Leader {
    l.(p1HighestOpen := h, p1Ready := ready)
  }

  lemma GetMoved(l: Leader, i: nat, h: nat, ready: nat)
    requires |l.slots| > 0
    ensures Get(Moved(l, h, ready), i) == if Get(l, i).Some? then Some(Moved(Get(l, i).value, h, ready)) else None
  {
  }

  /** Preparing a range looks at the records only. */
  lemma {:induction false} PrepareIgnores(l: Leader, from: nat, last: nat, b: nat, h: nat, ready: nat)
    requires |l.slots| > 0
    ensures PrepareRange(Moved(l, h, ready), from, last, b) ==
      if PrepareRange(l, from, last, b).Some? then Some(Moved(PrepareRange(l, from, last, b).value, h, ready)) else None
    decreases last + 1 - from
  {
    if from <= last {
      hide Get;
      GetMoved(l, from, h, ready);
      if Get(l, from).Some? {
        var l1 := Get(l, from).value;
        var r := Slot(l1, from);
        if r.status == Ready {
          PrepareIgnores(SetSlot(l1, r.(status := P1Pending, ballot := b)), from + 1, last, b, h, ready);
        }
      }
    }
  }

  lemma {:induction false} PrepareRest(l: Leader, from: nat, last: nat, b: nat)
    requires |l.slots| > 0 && PrepareRange(l, from, last, b).Some?
    ensures var l' := PrepareRange(l, from, last, b).value;
            && l'.highestOpen == l.highestOpen && l'.highestClosed == l.highestClosed && l'.queue == l.queue
            && l'.p1Ready == l.p1Ready && l'.p1HighestOpen == l.p1HighestOpen
            && l'.seqNumber == l.seqNumber && |l'.slots| == |l.slots|
    decreases last + 1 - from
  {
    if from <= last {
      var l1 := Get(l, from).value;
      PrepareRest(SetSlot(l1, Slot(l1, from).(status := P1Pending, ballot := b)), from + 1, last, b);
    }
  }

  /** Opening new instances for phase 1 never fails and keeps the window. */
  lemma OpenPhase1Keeps(c: Config, l: Leader)
    requires LeaderOk(c, l)
    ensures OpenPhase1(c, l).Some? && LeaderOk(c, OpenPhase1(c, l).value.0)
    ensures var l' := OpenPhase1(c, l).value.0;
            && l'.highestOpen == l.highestOpen && l'.highestClosed == l.highestClosed && l'.queue == l.queue
            && l.p1HighestOpen <= l'.p1HighestOpen < l'.highestClosed + c.workingSet
  {
    hide LeaderOk, PrepareRange, MakeFirstBallot;
    var active := ActiveCount(l);
    LeaderBounds(c, l);
    if active < c.preexec / 2 {
      var toOpen := c.preexec - active;
      var last := l.p1HighestOpen + toOpen;
      FirstBallotPositive(c);
      PrepareRangeKeeps(c, l, last, MakeFirstBallot(c.id, c.incarnation));
      PrepareRest(l, l.p1HighestOpen + 1, last, MakeFirstBallot(c.id, c.incarnation));
    }
  }

  lemma LeaderBounds(c: Config, l: Leader)
    requires LeaderOk(c, l)
    ensures ValidConfig(c) && Window(c, l) && |l.slots| > 0
    ensures ActiveCount(l) == 2 * l.p1Ready
    ensures UnsignedRoom(c, l) == c.maxActive - (l.highestOpen - l.highestClosed)
  {
    hide SlotOk, Present, HeadOpen, ActiveCount, UnsignedRoom;
    NoWrap(c, l);
  }

  lemma NoWrap(c: Config, l: Leader)
    requires ValidConfig(c) && Window(c, l)
    ensures ActiveCount(l) == 2 * l.p1Ready
    ensures UnsignedRoom(c, l) == c.maxActive - (l.highestOpen - l.highestClosed)
  {
  }

  lemma FirstBallotPositive(c: Config)
    requires ValidConfig(c)
    ensures 0 < MakeFirstBallot(c.id, c.incarnation) < WORD32
  {
    FirstBallotIsMine(c.id, c.incarnation);
  }

  // ----- opening instances for phase 2 -----

  /** Giving the next client value to the next instance never fails an assertion and keeps the window. */
  lemma OpenOneKeeps(c: Config, l: Leader)
    requires LeaderOk(c, l)
    ensures !OpenOne(c, l).Abort?
    ensures OpenOne(c, l).Stop? ==> OpenOne(c, l).leader == l
    ensures OpenOne(c, l).Opened? ==>
      && LeaderOk(c, OpenOne(c, l).leader) && l.queue != []
      && OpenOne(c, l).leader.highestOpen == l.highestOpen + 1 && OpenOne(c, l).leader.highestClosed == l.highestClosed
      && OpenOne(c, l).leader.p1HighestOpen == l.p1HighestOpen
      && OpenOne(c, l).leader.queue == l.queue[1..] && OpenOne(c, l).mapping.bytes == l.queue[0].data
      && OpenOne(c, l).mapping.key.mcaster == c.id
  {
    LeaderBounds(c, l);
    var i := l.highestOpen + 1;
    if UnsignedRoom(c, l) != 0 && i <= l.p1HighestOpen && l.p1Ready != 0 {
      GetWithin(c, l, i);
      if OpenOne(c, l).Opened? {
        OpenedKeeps(c, l);
      }
    }
  }

  lemma OpenedKeeps(c: Config, l: Leader)
    requires LeaderOk(c, l) && OpenOne(c, l).Opened? && Get(l, l.highestOpen + 1) == Some(l)
    requires l.highestOpen < l.p1HighestOpen && l.highestOpen - l.highestClosed < c.maxActive
    requires Slot(l, l.highestOpen + 1).inst == l.highestOpen + 1 && Band(l, Slot(l, l.highestOpen + 1))
    ensures LeaderOk(c, OpenOne(c, l).leader)
  {
    var l' := OpenOne(c, l).leader;
    var i := l.highestOpen + 1;
    var r := Slot(l, i).(key := OpenOne(c, l).mapping.key, value := Some(OpenOne(c, l).mapping.bytes), status := P2Pending);
    assert l' == SetSlot(l, r).(queue := l'.queue, seqNumber := l'.seqNumber, p1Ready := l.p1Ready - 1, highestOpen := i);
    hide OpenOne, Get, Present, Slot;
    OpenedSlots(c, l, l', r);
    PresentAfter(l, r);
    SamePresent(SetSlot(l, r), l');
    OpenedHead(c, l, l', r);
  }

  /** The record of the next instance moves from the phase-1 band to the phase-2 band. */
  lemma OpenedSlots(c: Config, l: Leader, l': Leader, r: MRec)
    requires Slots(c, l) && |l.slots| > 0 && l'.slots == SetSlot(l, r).slots
    requires l'.highestOpen == l.highestOpen + 1 == r.inst
    requires l'.highestClosed == l.highestClosed <= l.highestOpen && l'.p1HighestOpen == l.p1HighestOpen >= r.inst
    requires Slot(l, r.inst).inst == r.inst && Band(l', r)
    ensures Slots(c, l')
  {
    forall k | 0 <= k < |l'.slots|
      ensures SlotOk(l', k)
    {
      assert SlotOk(l, k);
    }
  }

  lemma SamePresent(l: Leader, l': Leader)
    requires |l.slots| > 0 && l'.slots == l.slots && l'.highestClosed == l.highestClosed
    requires l'.p1HighestOpen == l.p1HighestOpen
    ensures Present(l') == Present(l)
  {
    assert forall i :: Slot(l', i) == Slot(l, i);
  }

  lemma OpenedHead(c: Config, l: Leader, l': Leader, r: MRec)
    requires Core(c, l) && HeadOpen(l) && l'.slots == SetSlot(l, r).slots
    requires l'.highestOpen == l.highestOpen + 1 == r.inst
    requires l'.highestClosed == l.highestClosed && r.status != Done && Slot(l, r.inst).inst == r.inst
    ensures |l'.slots| > 0 && HeadOpen(l')
  {
    var next := l.highestClosed + 1;
    SlotAfter(l, r, next);
    assert Slot(l', next) == Slot(SetSlot(l, r), next);
  }

  lemma {:induction false} OpenPhase2Keeps(c: Config, l: Leader, count: nat)
    requires LeaderOk(c, l)
    ensures OpenPhase2(c, l, count).Some? && LeaderOk(c, OpenPhase2(c, l, count).value.0)
    ensures var (l', sends, mappings) := OpenPhase2(c, l, count).value;
            && l'.highestOpen == l.highestOpen + |mappings| && |mappings| <= |l.queue| && l'.queue == l.queue[|mappings|..]
            && (forall j :: 0 <= j < |mappings| ==> mappings[j].bytes == l.queue[j].data)
            && l'.highestClosed == l.highestClosed && l'.p1HighestOpen == l.p1HighestOpen
    decreases |l.queue|
  {
    hide LeaderOk, OpenOne;
    OpenOneKeeps(c, l);
    LeaderBounds(c, l);
    if OpenOne(c, l).Opened? {
      var l1 := OpenOne(c, l).leader;
      LeaderBounds(c, l1);
      if count + 1 < c.maxPerIteration {
        OpenPhase2Keeps(c, l1, count + 1);
      }
    }
  }

  // ----- timeouts -----

  lemma {:induction false} CheckExpiredKeeps(c: Config, l: Leader, i: nat, last: nat, expired: set<nat>)
    requires LeaderOk(c, l) && l.highestClosed < i && last <= l.p1HighestOpen
    ensures CheckExpired(l, i, last, expired).Some? && CheckExpired(l, i, last, expired).value.0 == l
    decreases last + 1 - i
  {
    if i <= last {
      GetWithin(c, l, i);
      CheckExpiredKeeps(c, l, i + 1, last, expired);
    }
  }

  /** The periodic check never fails an assertion, keeps the invariant, and moves client values from the front
      of the queue to the next instances, in order. */
  lemma PeriodicKeeps(c: Config, l: Leader, expired: set<nat>)
    requires LeaderOk(c, l)
    ensures Periodic(c, l, expired).Some? && LeaderOk(c, Periodic(c, l, expired).value.0)
    ensures var (l', sends, mappings) := Periodic(c, l, expired).value;
            && l'.highestClosed == l.highestClosed && l'.highestOpen == l.highestOpen + |mappings|
            && |mappings| <= |l.queue| && l'.queue == l.queue[|mappings|..]
            && forall j :: 0 <= j < |mappings| ==> mappings[j].bytes == l.queue[j].data
  {
    hide LeaderOk, OpenPhase1, CheckExpired, OpenPhase2;
    LeaderBounds(c, l);
    OpenPhase1Keeps(c, l);
    var l1 := OpenPhase1(c, l).value.0;
    LeaderBounds(c, l1);
    CheckExpiredKeeps(c, l1, l1.highestClosed + 1, Highest(l1), expired);
    OpenPhase2Keeps(c, l1, 0);
  }

  // ----- answers from the ring -----

  lemma {:induction false} FinishRangeKeeps(c: Config, l: Leader, i: nat, last: nat)
    requires LeaderOk(c, l) && l.highestClosed < i && last <= l.p1HighestOpen && FinishRange(l, i, last).Some?
    ensures LeaderOk(c, FinishRange(l, i, last).value)
    ensures FinishRange(l, i, last).value == l.(slots := FinishRange(l, i, last).value.slots)
    decreases last + 1 - i
  {
    if i <= last {
      GetWithin(c, l, i);
      var r := OnRange(Slot(l, i)).value;
      SetWithin(c, l, r);
      assert HeadOpen(SetSlot(l, r));
      FinishRangeKeeps(c, SetSlot(l, r), i + 1, last);
    }
  }

  lemma GetOk(c: Config, l: Leader, inst: nat)
    requires LeaderOk(c, l) && l.highestClosed < inst <= l.p1HighestOpen
    ensures Get(l, inst) == Some(l) && Slot(l, inst).inst == inst
  {
    GetWithin(c, l, inst);
  }

  ghost predicate AllPending(l: Leader, i: nat, last: nat)
    requires |l.slots| > 0
  {
    forall j :: i <= j <= last ==> Slot(l, j).status == P1Pending
  }

  lemma {:induction false} FinishRangeIff(c: Config, l: Leader, i: nat, last: nat)
    requires LeaderOk(c, l) && l.highestClosed < i && last <= l.p1HighestOpen
    ensures FinishRange(l, i, last).Some? <==> AllPending(l, i, last)
    decreases last + 1 - i
  {
    if i <= last {
      hide LeaderOk, Slot, SetSlot;
      LeaderBounds(c, l);
      GetOk(c, l, i);
      if Slot(l, i).status == P1Pending {
        var l1 := SetSlot(l, Slot(l, i).(status := P1Done));
        FinishRangeKeeps(c, l, i, i);
        assert FinishRange(l1, i + 1, i) == Some(l1);
        LeaderBounds(c, l1);
        FinishRangeIff(c, l1, i + 1, last);
        forall j | i < j <= last
          ensures Slot(l1, j) == Slot(l, j)
        {
          OtherSlot(c, l, i, j, P1Done);
        }
      }
    }
  }

  lemma OtherSlot(c: Config, l: Leader, i: nat, j: nat, st: Status)
    requires LeaderOk(c, l) && l.highestClosed < i < j <= l.p1HighestOpen
    ensures Slot(SetSlot(l, Slot(l, i).(status := st)), j) == Slot(l, j)
  {
    hide LeaderOk, Get;
    LeaderBounds(c, l);
    GetOk(c, l, i);
    GetOk(c, l, j);
    SlotAfter(l, Slot(l, i).(status := st), j);
    SameRecord(l, i, j);
  }

  /** The leader aborts on a range answer exactly when the range reaches below the closed bound, or phase 1 of
      one of its instances ended before: a late or repeated answer. */
  lemma RangeAbortsIff(c: Config, l: Leader, m: Msg)
    requires LeaderOk(c, l) && m.Phase1Range? && m.to <= l.p1HighestOpen && IsMyBallot(m.ballot, c.id, c.incarnation)
    ensures HandlePhase1Range(c, l, m).None? <==>
      m.from <= l.highestClosed || (m.promises >= c.quorum && !AllPending(l, m.from, m.to))
  {
    hide LeaderOk, IsMyBallot, FinishRange, AllPending;
    LeaderBounds(c, l);
    if m.from > l.highestClosed {
      FinishRangeIff(c, l, m.from, m.to);
    }
  }

  /** A range answer keeps the invariant, unless it aborts. */
  lemma HandlePhase1RangeKeeps(c: Config, l: Leader, m: Msg)
    requires LeaderOk(c, l) && m.Phase1Range? && m.to <= l.p1HighestOpen
    ensures HandlePhase1Range(c, l, m).None? <==>
      IsMyBallot(m.ballot, c.id, c.incarnation) &&
      (m.from <= l.highestClosed || (m.promises >= c.quorum && !AllPending(l, m.from, m.to)))
    ensures HandlePhase1Range(c, l, m).Some? ==>
      && LeaderOk(c, HandlePhase1Range(c, l, m).value.0)
      && HandlePhase1Range(c, l, m).value.0 == l.(slots := HandlePhase1Range(c, l, m).value.0.slots)
  {
    hide IsMyBallot, LeaderOk, FinishRange, AllPending;
    LeaderBounds(c, l);
    if IsMyBallot(m.ballot, c.id, c.incarnation) {
      RangeAbortsIff(c, l, m);
      if m.from > l.highestClosed && m.promises >= c.quorum && FinishRange(l, m.from, m.to).Some? {
        FinishRangeKeeps(c, l, m.from, m.to);
      }
    }
  }

  /** With one leader no instance in phase 1 has a command assigned, so none is ever replaced or given back. A promise
      whose sequence number cannot grow makes the raised ballot wrap, but never to 0: the identity stays. */
  lemma HandlePhase1Keeps(c: Config, l: Leader, m: Msg)
    requires LeaderOk(c, l) && m.Phase1? && m.inst <= l.p1HighestOpen && m.highestPromised < WORD32
    ensures HandlePhase1(c, l, m).Some? && LeaderOk(c, HandlePhase1(c, l, m).value.0)
    ensures HandlePhase1(c, l, m).value.0 == l.(slots := HandlePhase1(c, l, m).value.0.slots)
  {
    hide IsMyBallot, RaiseBallot;
    if m.inst > l.highestClosed && IsMyBallot(m.ballot, c.id, c.incarnation) {
      GetWithin(c, l, m.inst);
      var r := Slot(l, m.inst);
      var reply := OnPhase1(c.quorum, r, m);
      assert reply.back.None?;
      if Awaited1(r, m) {
        RaisedPositive(c, r.ballot, m.highestPromised);
      }
      SetWithin(c, l, reply.rec);
      assert HeadOpen(SetSlot(l, reply.rec));
    }
  }

  lemma RaisedPositive(c: Config, b: nat, promised: nat)
    requires ValidConfig(c) && b < WORD32 && promised < WORD32 && IsMyBallot(b, c.id, c.incarnation)
    ensures 0 < RaiseBallot(b, promised) < WORD32
  {
    hide RaiseBallot, IsMyBallot;
    RaiseHalves(b, promised);
    MineByOwner(b, c.id, c.incarnation);
  }

  // ----- closing instances -----

  lemma {:induction false} AdvanceKeeps(c: Config, l: Leader)
    requires Core(c, l)
    ensures AdvanceClosed(l).Some? && LeaderOk(c, AdvanceClosed(l).value)
    ensures var l' := AdvanceClosed(l).value;
            && l'.highestOpen == l.highestOpen && l'.p1HighestOpen == l.p1HighestOpen && l'.queue == l.queue
            && l.highestClosed <= l'.highestClosed && l'.seqNumber == l.seqNumber
    decreases l.highestOpen - l.highestClosed
  {
    hide Core, Get, Slot;
    var next := l.highestClosed + 1;
    HeadPresent(c, l);
    if l.highestClosed < l.highestOpen && Slot(l, next).inst == next && Slot(l, next).status == Done {
      StepClosed(c, l);
      var l1 := Get(l.(highestClosed := next), next + 1).value;
      AdvanceKeeps(c, l1);
    }
  }

  lemma HeadPresent(c: Config, l: Leader)
    requires Core(c, l)
    ensures |l.slots| > 0 && (l.highestClosed < l.highestOpen ==> Slot(l, l.highestClosed + 1).inst == l.highestClosed + 1)
  {
  }

  lemma StepClosed(c: Config, l: Leader)
    requires Core(c, l) && l.highestClosed < l.highestOpen && Slot(l, l.highestClosed + 1).status == Done
    ensures var next := l.highestClosed + 1;
            && Get(l.(highestClosed := next), next + 1).Some?
            && Core(c, Get(l.(highestClosed := next), next + 1).value)
            && Get(l.(highestClosed := next), next + 1).value ==
               l.(highestClosed := next, slots := Get(l.(highestClosed := next), next + 1).value.slots)
  {
    var next := l.highestClosed + 1;
    var l1 := l.(highestClosed := next);
    ClosedMoves(c, l);
    if next < l.p1HighestOpen {
      GetWithin(c, l1, next + 1);
    } else {
      GetNext(c, l1);
      PresentNext(c, l1, ReadyRec(next + 1));
      ReadyFits(c, l1);
    }
  }

  lemma ClosedMoves(c: Config, l: Leader)
    requires Core(c, l) && l.highestClosed < l.highestOpen && Slot(l, l.highestClosed + 1).status == Done
    ensures Core(c, l.(highestClosed := l.highestClosed + 1))
  {
    var next := l.highestClosed + 1;
    var l1 := l.(highestClosed := next);
    assert Slot(l, next).inst == next;
    forall k | 0 <= k < |l1.slots|
      ensures SlotOk(l1, k)
    {
      assert SlotOk(l, k);
    }
    assert forall i :: Slot(l1, i) == Slot(l, i);
  }

  lemma ReadyFits(c: Config, l: Leader)
    requires Core(c, l) && l.highestClosed == l.p1HighestOpen
    ensures Slots(c, SetSlot(l, ReadyRec(l.p1HighestOpen + 1)))
  {
    var l' := SetSlot(l, ReadyRec(l.p1HighestOpen + 1));
    forall k | 0 <= k < |l'.slots|
      ensures SlotOk(l', k)
    {
      assert SlotOk(l, k);
    }
  }

  lemma AdvanceOnce(l: Leader)
    requires |l.slots| > 0 && l.highestClosed < l.highestOpen
    requires Slot(l, l.highestClosed + 1).inst == l.highestClosed + 1 && Slot(l, l.highestClosed + 1).status == Done
    requires Get(l.(highestClosed := l.highestClosed + 1), l.highestClosed + 2).Some?
    ensures AdvanceClosed(l) == AdvanceClosed(Get(l.(highestClosed := l.highestClosed + 1), l.highestClosed + 2).value)
  {
  }

  /** A phase 2 answer aborts exactly when it names another key than the one assigned at its ballot; otherwise it keeps
      the invariant, and the closed bound only grows. */
  lemma HandlePhase2Keeps(c: Config, l: Leader, m: Msg)
    requires LeaderOk(c, l) && m.Phase2? && m.inst <= l.p1HighestOpen
    ensures |l.slots| > 0
    ensures HandlePhase2(c, l, m).None? <==>
      && m.inst > l.highestClosed && Slot(l, m.inst).status == P2Pending
      && Slot(l, m.inst).ballot == m.ballot && Slot(l, m.inst).key != m.key
    ensures HandlePhase2(c, l, m).Some? ==>
      var l' := HandlePhase2(c, l, m).value.0;
      && LeaderOk(c, l')
      && l'.highestOpen == l.highestOpen && l'.p1HighestOpen == l.p1HighestOpen && l'.queue == l.queue
      && l.highestClosed <= l'.highestClosed
  {
    if m.inst > l.highestClosed {
      GetWithin(c, l, m.inst);
      var r := Slot(l, m.inst);
      if OnPhase2(c.quorum, r, m).Some? {
        var reply := OnPhase2(c.quorum, r, m).value;
        SetWithin(c, l, reply.rec);
        if reply.rec.status == Done && r.status != Done {
          AdvanceKeeps(c, SetSlot(l, reply.rec));
        } else {
          assert SetSlot(l, reply.rec).slots == l.slots;
          assert SetSlot(l, reply.rec) == l;
        }
      }
    }
  }

  /** The leader still has the records of the last `workingSet` closed instances, and of all later ones. */
  lemma LastRecordsKept(c: Config, l: Leader, i: nat)
    requires LeaderOk(c, l) && 0 < i <= l.p1HighestOpen && l.highestClosed < i + c.workingSet
    ensures |l.slots| > 0 && Slot(l, i).inst == i
  {
    LeaderBounds(c, l);
    var r := Slot(l, i);
    assert SlotOk(l, i % |l.slots|);
    assert r.inst >= i;
    SameSlot(i, r.inst, |l.slots|);
  }

  /** The record of the instance exists and is not done. */
  predicate Unfinished(l: Leader, i: nat)
    requires |l.slots| > 0
  {
    Slot(l, i).inst == i && Slot(l, i).status != Done
  }

  /** The closed bound is exactly the longest prefix without an unfinished instance. */
  lemma ClosedIsLongestPrefix(c: Config, l: Leader, j: nat)
    requires LeaderOk(c, l) && j <= l.p1HighestOpen
    ensures j <= l.highestClosed <==> forall i :: 1 <= i <= j ==> !Unfinished(l, i)
  {
    forall i | 1 <= i <= l.highestClosed
      ensures !Unfinished(l, i)
    {
      assert SlotOk(l, i % |l.slots|);
    }
    var next := l.highestClosed + 1;
    if next <= j {
      GetWithin(c, l, next);
      assert Unfinished(l, next);
    }
  }
}
