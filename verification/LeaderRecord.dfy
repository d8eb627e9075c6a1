/** What a leader (multicaster) does with one instance: its record, and its answer to the messages
    that come back from the ring. */
module LeaderRecord {
  import opened RingTypes
  import opened Ballots

  datatype Status = Empty | Ready | P1Pending | P1Done | P2Pending | Done

  datatype MRec = MRec(inst: nat, status: Status, ballot: nat, key: Key, value: Option<Bytes>)

  const CLEARED := MRec(0, Empty, 0, NULL_KEY, None)

  function ReadyRec(inst: nat): MRec {
    MRec(inst, Ready, 0, NULL_KEY, None)
  }

  function Phase1Msg(r: MRec): Msg {
    NewPhase1(r.inst, r.ballot, 0)
  }

  function Phase2Msg(r: MRec): Msg {
    Phase2(r.inst, r.ballot, 0, r.key)
  }

  function MappingMsg(r: MRec): Msg {
    CmdMap(r.inst, r.key, if r.value.Some? then r.value.value else [])
  }

  /** The record after a handler, the messages sent, and a client value given back to the queue. */
  datatype Reply = Reply(rec: MRec, sends: seq<Msg>, back: Option<Bytes>)

  predicate Awaited1(r: MRec, m: Msg)
    requires m.Phase1?
  {
    r.status == P1Pending && r.ballot == m.ballot
  }

  function RaisedOver(r: MRec, promised: nat): MRec {
    if promised != 0 then r.(ballot := RaiseBallot(r.ballot, promised)) else r
  }

  /** A phase 1 message that went round the ring. */
  function OnPhase1(quorum: nat, r: MRec, m: Msg): Reply
    requires m.Phase1?
  {
    if !Awaited1(r, m) then
      Reply(r, [], None)
    else if m.promises < quorum then
      var r' := RaisedOver(r, m.highestPromised);
      Reply(r', [Phase1Msg(r')], None)
    else if r.value.None? then
      Reply(r.(status := P1Done), [], None)
    else if m.highestAccepted == 0 || m.key == r.key then
      var r' := r.(status := P2Pending);
      Reply(r', [Phase2Msg(r')], None)
    else
      var r' := r.(status := P2Pending, key := m.key, value := Some(m.bytes));
      Reply(r', [Phase2Msg(r')], if r.value.value == m.bytes then None else r.value)
  }

  /** The one branch that finishes phase 1 and forgets the accepted command the ring reported. */
  predicate ForgetsReport(quorum: nat, r: MRec, m: Msg)
    requires m.Phase1?
  {
    Awaited1(r, m) && m.promises >= quorum && r.value.None? && m.highestAccepted > 0
  }

  /** One instance of a range message that went round the ring with enough promises: the record must wait
      for phase 1, but its ballot is not compared with the ballot of the message. */
  function OnRange(r: MRec): Option<MRec> {
    if r.status == P1Pending then Some(r.(status := P1Done)) else None
  }

  /** A phase 2 message that went round the ring; None when its key is not the one assigned. */
  function OnPhase2(quorum: nat, r: MRec, m: Msg): Option<Reply>
    requires m.Phase2?
  {
    if r.status != P2Pending || r.ballot != m.ballot then
      Some(Reply(r, [], None))
    else if r.key != m.key then
      None
    else if m.accepts < quorum then
      Some(Reply(r, [MappingMsg(r), Phase2Msg(r)], None))
    else
      Some(Reply(r.(status := Done), [Acceptance(r.inst, r.key)], None))
  }
}
