/** The single leader (multicaster): its window of instances, its circular store of records and the
    client values that wait for an instance. */
module LeaderSpec {
  import opened RingTypes
  import opened Ballots
  import opened LeaderRecord
  import opened DequeSpec

  datatype Config = Config(id: nat, incarnation: nat, quorum: nat, workingSet: nat, preexec: nat, maxActive: nat,
                           maxPerIteration: nat, queueLength: nat)

  /** The validated configuration. */
  predicate ValidConfig(c: Config) {
    && 0 < c.id < 256 && c.incarnation < 256 && c.quorum > 0
    && c.maxActive > 0 && c.preexec > 0 && c.maxPerIteration > 0 && c.queueLength > 0
    && c.preexec + c.maxActive < c.workingSet < 0x8000_0000
  }

  datatype Leader = Leader(
    slots: seq<MRec>, seqNumber: nat,
    p1Ready: nat, p1HighestOpen: nat, highestClosed: nat, highestOpen: nat,
    queue: seq<Elem<Bytes>>)

  function InitLeader(c: Config): Leader {
    Leader(seq(2 * c.workingSet, _ => CLEARED), 1, 0, 0, 0, 0, [])
  }

  function Slot(l: Leader, inst: nat): MRec
    requires |l.slots| > 0
  {
    l.slots[inst % |l.slots|]
  }

  function SetSlot(l: Leader, r: MRec): Leader
    requires |l.slots| > 0
  {
    l.(slots := l.slots[r.inst % |l.slots| := r])
  }

  /** Makes the record of an instance available; None when an assertion of the store fails. */
  function Get(l: Leader, inst: nat): Option<Leader>
    requires |l.slots| > 0
  {
    var r := Slot(l, inst);
    if r.inst == 0 then
      Some(l.(slots := l.slots[inst % |l.slots| := r.(inst := inst, status := Ready)]))
    else if r.inst < inst then
      if r.status == Done then Some(SetSlot(l, ReadyRec(inst))) else None
    else if r.inst > inst then
      None
    else
      Some(l)
  }

  // ----- opening instances -----

  /** Marks [from..last] as waiting for phase 1 with ballot b; every record must be unused. */
  function PrepareRange(l: Leader, from: nat, last: nat, b: nat): Option<Leader>
    requires |l.slots| > 0
    decreases last + 1 - from
  {
    if from > last then
      Some(l)
    else
      match Get(l, from)
      case None => None
      case Some(l1) =>
        var r := Slot(l1, from);
        if r.status == Ready then
          PrepareRange(SetSlot(l1, r.(status := P1Pending, ballot := b)), from + 1, last, b)
        else
          None
  }

  /** The counter of ready instances is added to itself; pending ones are never counted. */
  function ActiveCount(l: Leader): nat {
    (l.p1Ready + l.p1Ready) % WORD32
  }

  function OpenPhase1(c: Config, l: Leader): Option<(Leader, seq<Msg>)>
    requires |l.slots| > 0
  {
    var active := ActiveCount(l);
    if active >= c.preexec / 2 then
      Some((l, []))
    else
      var toOpen := c.preexec - active;
      var b := MakeFirstBallot(c.id, c.incarnation);
      var from, last := l.p1HighestOpen + 1, l.p1HighestOpen + toOpen;
      match PrepareRange(l, from, last, b)
      case None => None
      case Some(l') =>
        Some((l'.(p1HighestOpen := last, p1Ready := l.p1Ready + toOpen), [Phase1Range(from, last, b, 0)]))
  }

  const WORD64 := 0x1_0000_0000_0000_0000

  /** active_instances_range_size - (highest_open - highest_closed), in unsigned 64-bit arithmetic. */
  function UnsignedRoom(c: Config, l: Leader): nat {
    (c.maxActive - (l.highestOpen - l.highestClosed) % WORD64) % WORD64
  }

  datatype Opening = Abort | Stop(leader: Leader) | Opened(leader: Leader, mapping: Mapping, sends: seq<Msg>)

  function NextSeqNumber(s: nat): nat {
    var s' := (s + 1) % WORD16;
    if s' == 0xFFFF then 1 else s'
  }

  /** One round of the loop that gives the next client value to the next instance. */
  function OpenOne(c: Config, l: Leader): Opening
    requires |l.slots| > 0
  {
    var i := l.highestOpen + 1;
    if UnsignedRoom(c, l) == 0 || i > l.p1HighestOpen || l.p1Ready == 0 then
      Stop(l)
    else
      match Get(l, i)
      case None => Abort
      case Some(l1) =>
        var r := Slot(l1, i);
        if r.status != P1Done then
          if r.status == P1Pending then Stop(l1) else Abort
        else if r.ballot == 0 then
          Abort
        else if l1.queue == [] then
          Stop(l1)
        else if r.value.Some? then
          Abort
        else
          var bytes := l1.queue[0].data;
          var key := Key(c.id, c.incarnation, l1.seqNumber);
          var r' := r.(key := key, value := Some(bytes), status := P2Pending);
          Opened(SetSlot(l1, r').(queue := l1.queue[1..], seqNumber := NextSeqNumber(l1.seqNumber),
                                  p1Ready := l1.p1Ready - 1, highestOpen := i),
                 Mapping(key, bytes), [MappingMsg(r'), Phase2Msg(r')])
  }

  /** `count` instances were opened before in this call. The last component lists what was assigned. */
  function OpenPhase2(c: Config, l: Leader, count: nat): Option<(Leader, seq<Msg>, seq<Mapping>)>
    requires |l.slots| > 0
    decreases |l.queue|
  {
    match OpenOne(c, l)
    case Abort => None
    case Stop(l1) => Some((l1, [], []))
    case Opened(l1, mapping, sends) =>
      if count + 1 >= c.maxPerIteration then
        Some((l1, sends, [mapping]))
      else
        match OpenPhase2(c, l1, count + 1)
        case None => None
        case Some((l2, sends2, mappings)) => Some((l2, sends + sends2, [mapping] + mappings))
  }

  /** What is sent again for a record whose timeout is found expired or not. */
  function Repeats(r: MRec, expired: bool): seq<Msg> {
    if !expired then []
    else if r.status == P1Pending then [Phase1Msg(r)]
    else if r.status == P2Pending then [MappingMsg(r), Phase2Msg(r)]
    else []
  }

  /** Repeats the phase of every instance in [i..last] whose timeout expired. */
  function CheckExpired(l: Leader, i: nat, last: nat, expired: set<nat>): Option<(Leader, seq<Msg>)>
    requires |l.slots| > 0
    decreases last + 1 - i
  {
    if i > last then
      Some((l, []))
    else
      match Get(l, i)
      case None => None
      case Some(l1) =>
        var r := Slot(l1, i);
        match CheckExpired(l1, i + 1, last, expired)
        case None => None
        case Some((l2, rest)) => Some((l2, Repeats(r, i in expired) + rest))
  }

  function Highest(l: Leader): nat {
    if l.highestOpen > l.p1HighestOpen then l.highestOpen else l.p1HighestOpen
  }

  /** The periodic check: open for phase 1, repeat what timed out, give values to instances. */
  function Periodic(c: Config, l: Leader, expired: set<nat>): Option<(Leader, seq<Msg>, seq<Mapping>)>
    requires |l.slots| > 0
  {
    match OpenPhase1(c, l)
    case None => None
    case Some((l1, sends1)) =>
      assert |l1.slots| > 0 by { OpenPhase1Size(c, l); }
      match CheckExpired(l1, l1.highestClosed + 1, Highest(l1), expired)
      case None => None
      case Some((l2, sends2)) =>
        assert |l2.slots| > 0 by { CheckExpiredSize(l1, l1.highestClosed + 1, Highest(l1), expired); }
        match OpenPhase2(c, l2, 0)
        case None => None
        case Some((l3, sends3, mappings)) => Some((l3, sends1 + sends2 + sends3, mappings))
  }

  lemma {:induction false} PrepareRangeSize(l: Leader, from: nat, last: nat, b: nat)
    requires |l.slots| > 0 && PrepareRange(l, from, last, b).Some?
    ensures |PrepareRange(l, from, last, b).value.slots| == |l.slots|
    decreases last + 1 - from
  {
    if from <= last {
      var l1 := Get(l, from).value;
      PrepareRangeSize(SetSlot(l1, Slot(l1, from).(status := P1Pending, ballot := b)), from + 1, last, b);
    }
  }

  lemma OpenPhase1Size(c: Config, l: Leader)
    requires |l.slots| > 0 && OpenPhase1(c, l).Some?
    ensures |OpenPhase1(c, l).value.0.slots| == |l.slots|
  {
    hide PrepareRange, MakeFirstBallot;
    var active := ActiveCount(l);
    if active < c.preexec / 2 {
      PrepareRangeSize(l, l.p1HighestOpen + 1, l.p1HighestOpen + (c.preexec - active), MakeFirstBallot(c.id, c.incarnation));
    }
  }

  lemma {:induction false} CheckExpiredSize(l: Leader, i: nat, last: nat, expired: set<nat>)
    requires |l.slots| > 0 && CheckExpired(l, i, last, expired).Some?
    ensures |CheckExpired(l, i, last, expired).value.0.slots| == |l.slots|
    decreases last + 1 - i
  {
    if i <= last {
      CheckExpiredSize(Get(l, i).value, i + 1, last, expired);
    }
  }

  // ----- answers from the ring -----

  function FinishRange(l: Leader, i: nat, last: nat): Option<Leader>
    requires |l.slots| > 0
    decreases last + 1 - i
  {
    if i > last then
      Some(l)
    else
      match Get(l, i)
      case None => None
      case Some(l1) =>
        match OnRange(Slot(l1, i))
        case None => None
        case Some(r) => FinishRange(SetSlot(l1, r), i + 1, last)
  }

  function HandlePhase1Range(c: Config, l: Leader, m: Msg): Option<(Leader, seq<Msg>)>
    requires |l.slots| > 0 && m.Phase1Range?
  {
    if !IsMyBallot(m.ballot, c.id, c.incarnation) then
      Some((l, []))
    else if m.from <= l.highestClosed then
      None
    else if m.promises < c.quorum then
      Some((l, [Phase1Range(m.from, m.to, m.ballot, 0)]))
    else
      match FinishRange(l, m.from, m.to)
      case None => None
      case Some(l') => Some((l', []))
  }

  function GiveBack(c: Config, l: Leader, back: Option<Bytes>): Leader {
    if back.Some? then l.(queue := Prepend(l.queue, c.queueLength, Elem(back.value, |back.value|))) else l
  }

  function HandlePhase1(c: Config, l: Leader, m: Msg): Option<(Leader, seq<Msg>)>
    requires |l.slots| > 0 && m.Phase1?
  {
    if m.inst <= l.highestClosed || !IsMyBallot(m.ballot, c.id, c.incarnation) then
      Some((l, []))
    else
      match Get(l, m.inst)
      case None => None
      case Some(l1) =>
        var reply := OnPhase1(c.quorum, Slot(l1, m.inst), m);
        Some((GiveBack(c, SetSlot(l1, reply.rec), reply.back), reply.sends))
  }

  /** Moves the closed bound over every closed instance; the record after the bound is made available. */
  function AdvanceClosed(l: Leader): Option<Leader>
    requires |l.slots| > 0
    decreases l.highestOpen - l.highestClosed
  {
    var next := l.highestClosed + 1;
    if l.highestClosed < l.highestOpen && Slot(l, next).inst == next && Slot(l, next).status == Done then
      match Get(l.(highestClosed := next), next + 1)
      case None => None
      case Some(l1) => AdvanceClosed(l1)
    else
      Some(l)
  }

  function HandlePhase2(c: Config, l: Leader, m: Msg): Option<(Leader, seq<Msg>)>
    requires |l.slots| > 0 && m.Phase2?
  {
    if m.inst <= l.highestClosed then
      Some((l, []))
    else
      match Get(l, m.inst)
      case None => None
      case Some(l1) =>
        var r := Slot(l1, m.inst);
        match OnPhase2(c.quorum, r, m)
        case None => None
        case Some(reply) =>
          if reply.rec.status == Done && r.status != Done then
            match AdvanceClosed(SetSlot(l1, reply.rec))
            case None => None
            case Some(l2) => Some((l2, reply.sends))
          else
            Some((SetSlot(l1, reply.rec), reply.sends))
  }

  // ----- clients and learners -----

  function Submit(c: Config, l: Leader, bytes: Bytes): Leader {
    l.(queue := Append(l.queue, c.queueLength, Elem(bytes, |bytes|)))
  }

  /** A learner asks again for the mapping of an instance (repeat: not sent too recently). */
  function HandleMapRequest(l: Leader, inst: nat, repeat: bool): Option<(Leader, seq<Msg>)>
    requires |l.slots| > 0
  {
    match Get(l, inst)
    case None => None
    case Some(l1) => Some((l1, if repeat then [MappingMsg(Slot(l1, inst))] else []))
  }

  /** A learner asks again for the chosen key of an instance. */
  function HandleChosenRequest(l: Leader, inst: nat): Option<(Leader, seq<Msg>)>
    requires |l.slots| > 0
  {
    match Get(l, inst)
    case None => None
    case Some(l1) =>
      var r := Slot(l1, inst);
      Some((l1, if r.status == Done then [Acceptance(r.inst, r.key)] else []))
  }

  /** A message with several requests, answered one after the other. */
  function MapRequests(l: Leader, insts: seq<nat>, repeat: nat -> bool): Option<(Leader, seq<Msg>)>
    requires |l.slots| > 0
    decreases insts
  {
    if insts == [] then
      Some((l, []))
    else
      match HandleMapRequest(l, insts[0], repeat(|insts|))
      case None => None
      case Some((l1, sends)) =>
        match MapRequests(l1, insts[1..], repeat)
        case None => None
        case Some((l2, rest)) => Some((l2, sends + rest))
  }

  function ChosenRequests(l: Leader, insts: seq<nat>): Option<(Leader, seq<Msg>)>
    requires |l.slots| > 0
    decreases insts
  {
    if insts == [] then
      Some((l, []))
    else
      match HandleChosenRequest(l, insts[0])
      case None => None
      case Some((l1, sends)) =>
        match ChosenRequests(l1, insts[1..])
        case None => None
        case Some((l2, rest)) => Some((l2, sends + rest))
  }
}
