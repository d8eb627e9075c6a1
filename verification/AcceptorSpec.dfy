/** What a ring acceptor does with each message, on values: its promises, its accepted
    commands and the circular store that keeps them. */
module AcceptorSpec {
  import opened RingTypes
  import opened Modular

  /** One instance, as an acceptor remembers it. `proposed` is the most recent mapping that is not accepted. */
  datatype Rec = Rec(inst: nat, ballot: nat, acceptBallot: nat, accepted: Option<Mapping>, proposed: Option<Mapping>)

  function FreshRec(inst: nat): Rec {
    Rec(inst, 0, 0, None, None)
  }

  datatype Acceptor = Acceptor(slots: seq<Rec>, highestSeen: nat)

  function InitAcceptor(size: nat): Acceptor {
    Acceptor(seq(size, _ => FreshRec(0)), 0)
  }

  /** The slot of the instance was reused by a newer one. There is no archive, so asking for it aborts. */
  predicate Gone(a: Acceptor, inst: nat)
    requires |a.slots| > 0
  {
    a.slots[inst % |a.slots|].inst > inst
  }

  function RecordOf(a: Acceptor, inst: nat): Rec
    requires |a.slots| > 0
  {
    var r := a.slots[inst % |a.slots|];
    if r.inst == inst then r else FreshRec(inst)
  }

  function Put(a: Acceptor, r: Rec): Acceptor
    requires |a.slots| > 0
  {
    a.(slots := a.slots[r.inst % |a.slots| := r])
  }

  function Max(x: nat, y: nat): nat {
    if x > y then x else y
  }

  // ----- phase 1 -----

  /** The message an acceptor forwards after looking at a phase 1 request. */
  function ForwardPhase1(r: Rec, m: Msg): Msg
    requires m.Phase1?
  {
    if m.ballot < r.ballot then
      Phase1(m.inst, m.ballot, m.promises, m.highestAccepted, Max(r.ballot, m.highestPromised), m.key, m.bytes)
    else if r.acceptBallot <= m.highestAccepted then
      Phase1(m.inst, m.ballot, m.promises + 1, m.highestAccepted, m.highestPromised, m.key, m.bytes)
    else
      Phase1(m.inst, m.ballot, m.promises + 1, r.acceptBallot, m.highestPromised, KeyOf(r.accepted), BytesOf(r.accepted))
  }

  function HandlePhase1(a: Acceptor, m: Msg): Option<(Acceptor, Msg)>
    requires |a.slots| > 0 && m.Phase1?
  {
    if Gone(a, m.inst) then
      None
    else
      var r := RecordOf(a, m.inst);
      if m.ballot < r.ballot then
        Some((Put(a, r), ForwardPhase1(r, m)))
      else
        Some((Put(a, r.(ballot := m.ballot)).(highestSeen := Max(m.inst, a.highestSeen)), ForwardPhase1(r, m)))
  }

  /** Promises every instance of [from..to] at once; every one of them must still have ballot 0. */
  function GrantRange(a: Acceptor, from: nat, last: nat, ballot: nat): Option<Acceptor>
    requires |a.slots| > 0
    decreases last + 1 - from
  {
    if from > last then
      Some(a)
    else if Gone(a, from) || RecordOf(a, from).ballot != 0 then
      None
    else
      GrantRange(Put(a, RecordOf(a, from).(ballot := ballot)), from + 1, last, ballot)
  }

  /** Runs the single-instance handler on every instance of [from..to]. */
  function BreakRange(a: Acceptor, from: nat, last: nat, ballot: nat, promises: nat): Option<(Acceptor, seq<Msg>)>
    requires |a.slots| > 0
    decreases last + 1 - from
  {
    if from > last then
      Some((a, []))
    else
      match HandlePhase1(a, NewPhase1(from, ballot, promises))
      case None => None
      case Some((a1, m1)) =>
        match BreakRange(a1, from + 1, last, ballot, promises)
        case None => None
        case Some((a2, rest)) => Some((a2, [m1] + rest))
  }

  function HandlePhase1Range(a: Acceptor, m: Msg): Option<(Acceptor, seq<Msg>)>
    requires |a.slots| > 0 && m.Phase1Range?
  {
    if m.from > a.highestSeen then
      match GrantRange(a.(highestSeen := m.to), m.from, m.to, m.ballot)
      case None => None
      case Some(a') => Some((a', [Phase1Range(m.from, m.to, m.ballot, m.promises + 1)]))
    else
      BreakRange(a, m.from, m.to, m.ballot, m.promises)
  }

  // ----- phase 2: the edges A1..A8 of the map-accept graph -----

  datatype Vote = Refused | Accepted(rec: Rec)

  /** None when an assertion of the handler fails. */
  function VoteOn(r: Rec, ballot: nat, key: Key): Option<Vote> {
    if ballot < r.ballot then
      Some(Refused)
    else
      var isProposed, isAccepted := key == KeyOf(r.proposed), key == KeyOf(r.accepted);
      if isProposed && isAccepted then
        None
      else if !isProposed && !isAccepted then
        Some(Refused)
      else if isAccepted then
        Some(Accepted(r.(ballot := ballot, acceptBallot := ballot, proposed := None)))
      else if r.proposed.None? then
        None
      else
        Some(Accepted(r.(ballot := ballot, acceptBallot := ballot, accepted := r.proposed, proposed := None)))
  }

  function HandlePhase2(a: Acceptor, m: Msg): Option<(Acceptor, seq<Msg>)>
    requires |a.slots| > 0 && m.Phase2?
  {
    if Gone(a, m.inst) then
      None
    else
      var r := RecordOf(a, m.inst);
      match VoteOn(r, m.ballot, m.key)
      case None => None
      case Some(Refused) => Some((Put(a, r), []))
      case Some(Accepted(r')) =>
        Some((Put(a, r').(highestSeen := Max(m.inst, a.highestSeen)), [Phase2(m.inst, m.ballot, m.accepts + 1, m.key)]))
  }

  // ----- mappings: the edges M1..M8 of the map-accept graph -----

  predicate SameCommand(a: Bytes, b: Bytes) {
    |a| == |b| && SameText(a, b)
  }

  function MapInto(r: Rec, key: Key, bytes: Bytes): Option<Rec> {
    if r.accepted.Some? && r.accepted.value.key == key then
      if SameCommand(r.accepted.value.bytes, bytes) then Some(r.(proposed := None)) else None
    else if r.proposed.Some? && r.proposed.value.key == key then
      if SameCommand(r.proposed.value.bytes, bytes) then Some(r) else None
    else if r.accepted.Some? && r.proposed.Some? && SameCommand(r.proposed.value.bytes, bytes) then
      None
    else
      Some(r.(proposed := Some(Mapping(key, bytes))))
  }

  function HandleCmdMap(a: Acceptor, m: Msg): Option<Acceptor>
    requires |a.slots| > 0 && m.CmdMap?
  {
    if Gone(a, m.inst) then
      None
    else
      match MapInto(RecordOf(a, m.inst), m.key, m.bytes)
      case None => None
      case Some(r) => Some(Put(a, r))
  }

  /** Every message a ring acceptor acts on; the messages it forwards to its successor. */
  function Handle(a: Acceptor, m: Msg): Option<(Acceptor, seq<Msg>)>
    requires |a.slots| > 0
  {
    match m
    case Phase1(_, _, _, _, _, _, _) =>
      (match HandlePhase1(a, m)
       case None => None
       case Some((a', m')) => Some((a', [m'])))
    case Phase1Range(_, _, _, _) => HandlePhase1Range(a, m)
    case Phase2(_, _, _, _) => HandlePhase2(a, m)
    case CmdMap(_, _, _) =>
      (match HandleCmdMap(a, m)
       case None => None
       case Some(a') => Some((a', [])))
    case Acceptance(_, _) => Some((a, []))
  }
}
