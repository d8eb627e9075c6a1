/** What an acceptor's handlers mean for each other: a mapping makes its key acceptable, a promise is kept, what was
    accepted is reported, and what a phase 1 message reports after its trip round the ring. */
module AcceptorLaws {
  import opened RingTypes
  import opened Ballots
  import opened AcceptorSpec
  import opened AcceptorFacts

  // ----- mappings and votes -----

  /** A phase 2 message for this key at this ballot is accepted and forwarded with one more accept. */
  predicate Accepts(a: Acceptor, inst: nat, ballot: nat, key: Key, accepts: nat)
    requires |a.slots| > 0
  {
    var r := HandlePhase2(a, Phase2(inst, ballot, accepts, key));
    r.Some? && r.value.1 == [Phase2(inst, ballot, accepts + 1, key)]
  }

  /** After a mapping was stored, the acceptor accepts its key, and the key it had accepted before, at every ballot
      from its promise on, and nothing else. */
  lemma MappedIsAcceptable(a: Acceptor, inst: nat, key: Key, bytes: Bytes, a1: Acceptor)
    requires AcceptorInv(a) && inst > 0 && key != NULL_KEY && HandleCmdMap(a, CmdMap(inst, key, bytes)) == Some(a1)
    ensures |a1.slots| > 0 && RecordOf(a1, inst).ballot == RecordOf(a, inst).ballot
    ensures forall b: nat, k, n: nat :: k != NULL_KEY ==>
      (Accepts(a1, inst, b, k, n) <==> b >= RecordOf(a, inst).ballot && (k == key || k == KeyOf(RecordOf(a, inst).accepted)))
  {
    MappedRecord(a, inst, key, bytes, a1);
  }

  lemma MappedRecord(a: Acceptor, inst: nat, key: Key, bytes: Bytes, a1: Acceptor)
    requires AcceptorInv(a) && HandleCmdMap(a, CmdMap(inst, key, bytes)) == Some(a1)
    ensures |a1.slots| > 0 && !Gone(a1, inst) && RecOk(RecordOf(a, inst), a.highestSeen)
    ensures MapInto(RecordOf(a, inst), key, bytes) == Some(RecordOf(a1, inst)) && RecordOf(a1, inst).inst == inst
  {
    RecordOfOk(a, inst);
  }

  /** What is then accepted is the command stored for the key. It reads the same as the one in the mapping, and is that
      one unless the key was known before. The message goes on with one more accept. */
  lemma MappedIsAccepted(a: Acceptor, inst: nat, key: Key, bytes: Bytes, a1: Acceptor, b: nat, accepts: nat)
    requires AcceptorInv(a) && inst > 0 && key != NULL_KEY && HandleCmdMap(a, CmdMap(inst, key, bytes)) == Some(a1)
    requires b >= RecordOf(a, inst).ballot
    ensures |a1.slots| > 0 && Accepts(a1, inst, b, key, accepts)
    ensures AcceptedAs(a, HandlePhase2(a1, Phase2(inst, b, accepts, key)).value.0, inst, b, key, bytes)
  {
    MappedRecord(a, inst, key, bytes, a1);
    SameTextReflexive(bytes);
    hide MapInto;
    var r, r1 := RecordOf(a, inst), RecordOf(a1, inst);
    StoredFor(r, key, bytes, r1);
    var v := VoteOn(r1, b, key).value;
    assert v.Accepted?;
    assert RecordOf(HandlePhase2(a1, Phase2(inst, b, accepts, key)).value.0, inst) == v.rec;
  }

  /** The record holds a command for the key, under one of its two names. */
  lemma StoredFor(r: Rec, key: Key, bytes: Bytes, r1: Rec)
    requires MapInto(r, key, bytes) == Some(r1) && key != NULL_KEY && SameText(bytes, bytes)
    ensures r1.accepted == r.accepted && r1.ballot == r.ballot && r1.inst == r.inst
    ensures key == KeyOf(r.accepted) ==>
      r1.proposed.None? && r1.accepted.Some? && SameCommand(r1.accepted.value.bytes, bytes)
    ensures key != KeyOf(r.accepted) ==>
      && r1.proposed.Some? && r1.proposed.value.key == key && SameCommand(r1.proposed.value.bytes, bytes)
      && (key != KeyOf(r.proposed) ==> r1.proposed.value.bytes == bytes)
  {
  }

  /** The command is accepted at the ballot, under the key, and nothing else is held for the instance. */
  predicate AcceptedAs(before: Acceptor, a: Acceptor, inst: nat, b: nat, key: Key, bytes: Bytes)
    requires |before.slots| > 0
  {
    && |a.slots| > 0 && !Gone(a, inst)
    && var r, was := RecordOf(a, inst), RecordOf(before, inst);
       && r.ballot == r.acceptBallot == b && r.proposed.None?
       && r.accepted.Some? && r.accepted.value.key == key && SameCommand(r.accepted.value.bytes, bytes)
       && (key != KeyOf(was.accepted) && key != KeyOf(was.proposed) ==> r.accepted.value.bytes == bytes)
  }

  /** Two commands read the same when they have the same size and agree up to the first zero byte of one of them. */
  lemma {:induction false} SameTextIff(a: Bytes, b: Bytes)
    requires |a| == |b|
    ensures SameText(a, b) <==> forall k :: 0 <= k < |a| && (forall j :: 0 <= j < k ==> a[j] != 0) ==> a[k] == b[k]
  {
    if a != [] {
      SameTextIff(a[1..], b[1..]);
      if a[0] == b[0] && a[0] != 0 {
        if SameText(a[1..], b[1..]) {
          forall k | 0 <= k < |a| && (forall j :: 0 <= j < k ==> a[j] != 0)
            ensures a[k] == b[k]
          {
            if k > 0 {
              assert forall j :: 0 <= j < k - 1 ==> a[1..][j] == a[j + 1];
              assert a[1..][k - 1] == b[1..][k - 1];
            }
          }
        } else {
          var k :| 0 <= k < |a| - 1 && (forall j :: 0 <= j < k ==> a[1..][j] != 0) && a[1..][k] != b[1..][k];
          assert forall j :: 0 < j < k + 1 ==> a[j] == a[1..][j - 1];
          assert a[k + 1] != b[k + 1];
        }
      }
    }
  }

  predicate Knows(m: Option<Mapping>, key: Key) {
    m.Some? && m.value.key == key
  }

  /** A mapping stops the acceptor exactly when its slot was reused, or its key is known for a command that reads
      differently, or a third key comes with the command of the second. */
  lemma MapAbortsIff(a: Acceptor, inst: nat, key: Key, bytes: Bytes)
    requires AcceptorInv(a)
    ensures var r := RecordOf(a, inst);
            HandleCmdMap(a, CmdMap(inst, key, bytes)).None? <==>
              || Gone(a, inst)
              || (Knows(r.accepted, key) && !SameCommand(r.accepted.value.bytes, bytes))
              || (Knows(r.proposed, key) && !SameCommand(r.proposed.value.bytes, bytes))
              || (r.accepted.Some? && r.proposed.Some? && !Knows(r.accepted, key) && !Knows(r.proposed, key)
                  && SameCommand(r.proposed.value.bytes, bytes))
  {
    RecordOfOk(a, inst);
  }

  // ----- promises -----

  /** The acceptor's answer to a phase 1 request counts it. */
  predicate Promises(a: Acceptor, m: Msg)
    requires |a.slots| > 0 && m.Phase1?
  {
    var r := HandlePhase1(a, m);
    r.Some? && r.value.1.Phase1? && r.value.1.promises == m.promises + 1
  }

  /** An acceptor promises exactly the ballots from its last promise on; after a promise it accepts nothing and
      promises nothing below, and tells a lower request of the promise. */
  lemma PromiseIsKept(a: Acceptor, m: Msg, b: nat)
    requires |a.slots| > 0 && m.Phase1? && !Gone(a, m.inst) && b < m.ballot
    ensures Promises(a, m) <==> RecordOf(a, m.inst).ballot <= m.ballot
    ensures Promises(a, m) ==>
      var a1 := HandlePhase1(a, m).value.0;
      && |a1.slots| > 0 && !Gone(a1, m.inst) && !Promises(a1, NewPhase1(m.inst, b, 0))
      && HandlePhase1(a1, NewPhase1(m.inst, b, 0)).value.1 == Phase1(m.inst, b, 0, 0, m.ballot, NULL_KEY, [])
      && forall key, n: nat :: !Accepts(a1, m.inst, b, key, n)
  {
    var r := RecordOf(a, m.inst);
    if Promises(a, m) {
      var a1 := HandlePhase1(a, m).value.0;
      assert RecordOf(a1, m.inst).ballot == m.ballot && !Gone(a1, m.inst);
    }
  }

  /** What was accepted is reported to every later phase 1 request that has not met a higher acceptance. */
  lemma AcceptedIsReported(a: Acceptor, inst: nat, b: nat, key: Key, accepts: nat, m: Msg)
    requires AcceptorInv(a) && key != NULL_KEY && b > 0 && Accepts(a, inst, b, key, accepts)
    requires m.Phase1? && m.inst == inst && m.ballot >= b && m.highestAccepted < b
    ensures var a1 := HandlePhase2(a, Phase2(inst, b, accepts, key)).value.0;
            && |a1.slots| > 0 && Promises(a1, m)
            && var out := HandlePhase1(a1, m).value.1;
               out.highestAccepted == b && out.key == key && Knows(RecordOf(a1, inst).accepted, key)
               && out.bytes == RecordOf(a1, inst).accepted.value.bytes
  {
    RecordOfOk(a, inst);
    var v := VoteOn(RecordOf(a, inst), b, key).value;
    var a1 := HandlePhase2(a, Phase2(inst, b, accepts, key)).value.0;
    assert RecordOf(a1, inst) == v.rec && !Gone(a1, inst);
  }

  // ----- what a message leaves alone -----

  /** The highest instance a message is about. */
  function Top(m: Msg): nat {
    match m
    case Phase1Range(_, to, _, _) => to
    case Phase1(inst, _, _, _, _, _, _) => inst
    case Phase2(inst, _, _, _) => inst
    case CmdMap(inst, _, _) => inst
    case Acceptance(inst, _) => inst
  }

  /** A message about one instance changes the slot of that instance only; no message raises the mark of the highest
      instance seen above what it is about, so a range above everything seen is answered by one message. */
  lemma OthersKept(a: Acceptor, m: Msg, k: nat)
    requires |a.slots| > 0 && !m.Phase1Range? && k < |a.slots| && Handle(a, m).Some?
    ensures var a1 := Handle(a, m).value.0;
            && |a1.slots| == |a.slots| && (k != Top(m) % |a.slots| ==> a1.slots[k] == a.slots[k])
            && a.highestSeen <= a1.highestSeen <= Max(a.highestSeen, Top(m))
  {
  }

  lemma {:induction false} BreakSees(a: Acceptor, from: nat, last: nat, b: nat, promises: nat)
    requires |a.slots| > 0 && BreakRange(a, from, last, b, promises).Some?
    ensures var (a1, sends) := BreakRange(a, from, last, b, promises).value;
            && a.highestSeen <= a1.highestSeen <= Max(a.highestSeen, last)
            && |sends| == if from <= last then last + 1 - from else 0
    decreases last + 1 - from
  {
    if from <= last {
      BreakSees(HandlePhase1(a, NewPhase1(from, b, promises)).value.0, from + 1, last, b, promises);
    }
  }

  lemma {:induction false} GrantSees(a: Acceptor, from: nat, last: nat, b: nat)
    requires |a.slots| > 0 && GrantRange(a, from, last, b).Some?
    ensures GrantRange(a, from, last, b).value.highestSeen == a.highestSeen
    decreases last + 1 - from
  {
    if from <= last {
      GrantSees(Put(a, RecordOf(a, from).(ballot := b)), from + 1, last, b);
    }
  }

  /** Instance by instance: each gets the answer of the single-instance handler on the record it had before. */
  lemma {:induction false} BreakAnswers(a: Acceptor, from: nat, last: nat, b: nat, promises: nat, k: nat)
    requires |a.slots| > 0 && from <= k <= last && BreakRange(a, from, last, b, promises).Some?
    ensures |BreakRange(a, from, last, b, promises).value.1| == last + 1 - from
    ensures BreakRange(a, from, last, b, promises).value.1[k - from] == ForwardPhase1(RecordOf(a, k), NewPhase1(k, b, promises))
    decreases last + 1 - from
  {
    hide ForwardPhase1;
    BreakSees(a, from, last, b, promises);
    if from < k {
      var r := RecordOf(a, from);
      var a1 := HandlePhase1(a, NewPhase1(from, b, promises)).value.0;
      PutLower(a, if b < r.ballot then r else r.(ballot := b), a1, k);
      BreakAnswers(a1, from + 1, last, b, promises, k);
    }
  }

  /** A range is answered by one message that counts the promise when nothing of it was seen before, and instance by
      instance otherwise. */
  lemma RangeAnswer(a: Acceptor, m: Msg)
    requires |a.slots| > 0 && m.Phase1Range? && 0 < m.from <= m.to && Handle(a, m).Some?
    ensures var (a1, sends) := Handle(a, m).value;
            && a.highestSeen <= a1.highestSeen <= Max(a.highestSeen, m.to)
            && (if m.from > a.highestSeen then sends == [Phase1Range(m.from, m.to, m.ballot, m.promises + 1)] && a1.highestSeen == m.to
                else |sends| == m.to + 1 - m.from)
  {
    if m.from > a.highestSeen {
      GrantSees(a.(highestSeen := m.to), m.from, m.to, m.ballot);
    } else {
      BreakSees(a, m.from, m.to, m.ballot, m.promises);
    }
  }

  // ----- a phase 1 message round the ring -----

  /** Acceptors that can act on the instance. */
  ghost predicate Able(accs: seq<Acceptor>, inst: nat) {
    forall k :: 0 <= k < |accs| ==> |accs[k].slots| > 0 && AcceptorInv(accs[k]) && !Gone(accs[k], inst)
  }

  /** What the acceptors remember of the instance. */
  function Records(accs: seq<Acceptor>, inst: nat): (rs: seq<Rec>)
    requires forall k :: 0 <= k < |accs| ==> |accs[k].slots| > 0
    ensures |rs| == |accs| && forall k :: 0 <= k < |accs| ==> rs[k] == RecordOf(accs[k], inst)
  {
    seq(|accs|, k requires 0 <= k < |accs| => RecordOf(accs[k], inst))
  }

  datatype Trip = Trip(accs: seq<Acceptor>, msg: Msg)

  /** The first n acceptors handle the message one after the other. */
  function GoRound(accs: seq<Acceptor>, n: nat, m: Msg): (t: Option<Trip>)
    requires n <= |accs| && m.Phase1? && forall k :: 0 <= k < |accs| ==> |accs[k].slots| > 0
    ensures t.Some? ==> t.value.msg.Phase1? && |t.value.accs| == n
  {
    if n == 0 then
      Some(Trip([], m))
    else
      match GoRound(accs, n - 1, m)
      case None => None
      case Some(t) =>
        match HandlePhase1(accs[n - 1], t.msg)
        case None => None
        case Some((a, m')) => Some(Trip(t.accs + [a], m'))
  }

  function Granted(rs: seq<Rec>, n: nat, b: nat): nat
    requires n <= |rs|
  {
    if n == 0 then 0 else Granted(rs, n - 1, b) + if rs[n - 1].ballot <= b then 1 else 0
  }

  lemma {:induction false} AllGranted(rs: seq<Rec>, n: nat, b: nat)
    requires n <= |rs|
    ensures Granted(rs, n, b) <= n
    ensures Granted(rs, n, b) == n <==> forall k :: 0 <= k < n ==> rs[k].ballot <= b
  {
    if n > 0 {
      AllGranted(rs, n - 1, b);
    }
  }

  /** The message that went past the first n acceptors tells how many granted, the highest promise of those that
      refused, and the highest acceptance of those that granted, with its command. */
  ghost predicate Tells(rs: seq<Rec>, n: nat, inst: nat, b: nat, m: Msg)
    requires n <= |rs| && m.Phase1?
  {
    && m.inst == inst && m.ballot == b && m.promises == Granted(rs, n, b)
    && (forall k :: 0 <= k < n && rs[k].ballot > b ==> rs[k].ballot <= m.highestPromised)
    && (m.highestPromised == 0 || exists k :: 0 <= k < n && IsRefusal(rs[k], b, m.highestPromised))
    && (forall k :: 0 <= k < n && rs[k].ballot <= b ==> rs[k].acceptBallot <= m.highestAccepted)
    && (if m.highestAccepted == 0 then m.key == NULL_KEY && m.bytes == []
        else exists k :: 0 <= k < n && IsReport(rs[k], b, m))
  }

  predicate IsRefusal(r: Rec, b: nat, promised: nat) {
    r.ballot == promised > b
  }

  predicate IsReport(r: Rec, b: nat, m: Msg)
    requires m.Phase1?
  {
    r.ballot <= b && r.acceptBallot == m.highestAccepted && r.accepted == Some(Mapping(m.key, m.bytes))
  }

  lemma TellsMore(rs: seq<Rec>, n: nat, inst: nat, b: nat, m: Msg, seen: nat)
    requires n < |rs| && m.Phase1? && Tells(rs, n, inst, b, m) && RecOk(rs[n], seen)
    ensures ForwardPhase1(rs[n], m).Phase1? && Tells(rs, n + 1, inst, b, ForwardPhase1(rs[n], m))
  {
    var m' := ForwardPhase1(rs[n], m);
    if m'.highestPromised != 0 {
      if m'.highestPromised == m.highestPromised {
        var k :| 0 <= k < n && IsRefusal(rs[k], b, m.highestPromised);
        assert IsRefusal(rs[k], b, m'.highestPromised);
      } else {
        assert IsRefusal(rs[n], b, m'.highestPromised);
      }
    }
    if m'.highestAccepted != 0 {
      if m'.highestAccepted == m.highestAccepted {
        var k :| 0 <= k < n && IsReport(rs[k], b, m);
        assert IsReport(rs[k], b, m');
      } else {
        assert IsReport(rs[n], b, m');
      }
    }
  }

  /** An acceptor after it handled the message: the higher of its promise and the ballot, and all else as before. */
  ghost predicate AfterRound(a: Acceptor, a': Acceptor, inst: nat, b: nat)
    requires |a.slots| > 0
  {
    && |a'.slots| > 0 && AcceptorInv(a') && !Gone(a', inst)
    && RecordOf(a', inst) == RecordOf(a, inst).(ballot := Max(RecordOf(a, inst).ballot, b))
  }

  lemma OneAfter(a: Acceptor, m: Msg)
    requires AcceptorInv(a) && m.Phase1? && !Gone(a, m.inst) && m.inst > 0 && m.ballot > 0
    ensures HandlePhase1(a, m).Some? && AfterRound(a, HandlePhase1(a, m).value.0, m.inst, m.ballot)
    ensures HandlePhase1(a, m).value.1 == ForwardPhase1(RecordOf(a, m.inst), m)
    ensures RecOk(RecordOf(a, m.inst), a.highestSeen)
  {
    RecordOfOk(a, m.inst);
    Phase1Facts(a, m);
  }

  /** A phase 1 message after its trip: the number of promises, the highest of the refusers' promises, and the highest
      accepted command of the others. */
  lemma {:induction false} RoundTells(accs: seq<Acceptor>, n: nat, inst: nat, b: nat)
    requires n <= |accs| && inst > 0 && b > 0 && Able(accs, inst)
    ensures forall k :: 0 <= k < |accs| ==> |accs[k].slots| > 0
    ensures GoRound(accs, n, NewPhase1(inst, b, 0)).Some?
    ensures var t := GoRound(accs, n, NewPhase1(inst, b, 0)).value;
            && Tells(Records(accs, inst), n, inst, b, t.msg)
            && forall k :: 0 <= k < n ==> AfterRound(accs[k], t.accs[k], inst, b)
  {
    hide Gone, RecordOf, AfterRound, HandlePhase1, ForwardPhase1, Tells;
    if n == 0 {
      NothingTold(Records(accs, inst), inst, b);
    } else {
      RoundTells(accs, n - 1, inst, b);
      var t := GoRound(accs, n - 1, NewPhase1(inst, b, 0)).value;
      ToldAbout(Records(accs, inst), n - 1, inst, b, t.msg);
      OneAfter(accs[n - 1], t.msg);
      TellsMore(Records(accs, inst), n - 1, inst, b, t.msg, accs[n - 1].highestSeen);
    }
  }

  lemma NothingTold(rs: seq<Rec>, inst: nat, b: nat)
    ensures Tells(rs, 0, inst, b, NewPhase1(inst, b, 0))
  {
  }

  lemma ToldAbout(rs: seq<Rec>, n: nat, inst: nat, b: nat, m: Msg)
    requires n <= |rs| && m.Phase1? && Tells(rs, n, inst, b, m)
    ensures m.inst == inst && m.ballot == b && m.promises == Granted(rs, n, b)
  {
  }

  /** The promises of refusers are below the ballot raised over what they told. */
  lemma RaisedBeatsAll(rs: seq<Rec>, inst: nat, b: nat, m: Msg)
    requires m.Phase1? && Tells(rs, |rs|, inst, b, m) && m.promises < |rs| && 0 < b < WORD32
    requires (forall k :: 0 <= k < |rs| ==> rs[k].ballot < WORD32) && Seq(m.highestPromised) < 0xFFFF
    ensures b < m.highestPromised < WORD32 && b < RaiseBallot(b, m.highestPromised)
    ensures forall k :: 0 <= k < |rs| ==> Max(rs[k].ballot, b) <= RaiseBallot(b, m.highestPromised)
  {
    hide RaiseBallot, Seq;
    AllGranted(rs, |rs|, b);
    var r :| 0 <= r < |rs| && rs[r].ballot > b;
    assert rs[r].ballot <= m.highestPromised;
    RaiseExceeds(b, m.highestPromised);
  }

  lemma AfterAll(accs: seq<Acceptor>, accs': seq<Acceptor>, inst: nat, b: nat, b2: nat)
    requires |accs'| == |accs| && Able(accs, inst) && forall k :: 0 <= k < |accs| ==> AfterRound(accs[k], accs'[k], inst, b)
    requires forall k :: 0 <= k < |accs| ==> Max(Records(accs, inst)[k].ballot, b) <= b2
    ensures Able(accs', inst) && Granted(Records(accs', inst), |accs|, b2) == |accs|
  {
    hide Gone, RecordOf, AcceptorInv;
    AllGranted(Records(accs', inst), |accs|, b2);
  }

  /** After a refusal the raised ballot beats every promise on the ring, so the next round is granted by all. */
  lemma SecondRoundIsGranted(accs: seq<Acceptor>, inst: nat, b: nat)
    requires inst > 0 && 0 < b < WORD32 && Able(accs, inst)
    requires forall k :: 0 <= k < |accs| ==> Records(accs, inst)[k].ballot < WORD32
    ensures GoRound(accs, |accs|, NewPhase1(inst, b, 0)).Some?
    ensures var t := GoRound(accs, |accs|, NewPhase1(inst, b, 0)).value;
            var b2 := RaiseBallot(b, t.msg.highestPromised);
            && t.msg.inst == inst && t.msg.ballot == b
            && (t.msg.promises < |accs| && Seq(t.msg.highestPromised) < 0xFFFF ==>
                  && b2 > b && t.msg.highestPromised > 0 && Able(t.accs, inst)
                  && var t2 := GoRound(t.accs, |accs|, NewPhase1(inst, b2, 0));
                     && t2.Some? && t2.value.msg.promises == |accs|
                     && t2.value.msg.inst == inst && t2.value.msg.ballot == b2)
  {
    hide GoRound, RaiseBallot, Seq, Gone, AcceptorInv, RecordOf, Tells, Able, AfterRound;
    RoundTells(accs, |accs|, inst, b);
    var t := GoRound(accs, |accs|, NewPhase1(inst, b, 0)).value;
    ToldAbout(Records(accs, inst), |accs|, inst, b, t.msg);
    if t.msg.promises < |accs| && Seq(t.msg.highestPromised) < 0xFFFF {
      var b2 := RaiseBallot(b, t.msg.highestPromised);
      RaisedBeatsAll(Records(accs, inst), inst, b, t.msg);
      AfterAll(accs, t.accs, inst, b, b2);
      RoundTells(t.accs, |accs|, inst, b2);
      ToldAbout(Records(t.accs, inst), |accs|, inst, b2, GoRound(t.accs, |accs|, NewPhase1(inst, b2, 0)).value.msg);
    }
  }
}
