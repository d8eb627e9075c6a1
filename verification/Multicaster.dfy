/** The leader as the program runs it: one array of instance records, counters changed in place, loops. Each
    method is proved against the function of LeaderSpec it implements; `ok` is false where an assertion of the
    program stops it. */
module Multicasters {
  import opened RingTypes
  import opened Ballots
  import opened LeaderRecord
  import opened DequeSpec
  import opened LeaderSpec
  import opened LeaderInv

  class Multicaster {
    const cfg: Config
    const instances: array<MRec>
    var seqNumber: nat
    var p1Ready: nat
    var p1HighestOpen: nat
    var highestClosed: nat
    var highestOpen: nat
    var queue: seq<Elem<Bytes>>
    /** Everything handed to the network so far. */
    var sent: seq<Msg>

    ghost predicate Valid()
      reads this, instances
    {
      ValidConfig(cfg) && instances.Length == 2 * cfg.workingSet
    }

    ghost function Abs(): (l: Leader)
      requires Valid()
      reads this, instances
      ensures |l.slots| > 0
    {
      Leader(instances[..], seqNumber, p1Ready, p1HighestOpen, highestClosed, highestOpen, queue)
    }

    constructor (c: Config)
      requires ValidConfig(c)
      ensures Valid() && fresh(instances) && cfg == c && Abs() == InitLeader(c) && sent == []
    {
      cfg := c;
      instances := new MRec[2 * c.workingSet](_ => CLEARED);
      seqNumber, p1Ready, p1HighestOpen, highestClosed, highestOpen, queue, sent := 1, 0, 0, 0, 0, [], [];
      new;
      assert instances[..] == InitLeader(c).slots;
    }

    // ----- the record store -----

    /** The slot of an instance, cleared for it if need be. */
    method GetRecord(inst: nat) returns (ok: bool, k: nat)
      requires Valid()
      modifies instances
      ensures Valid() && k == inst % instances.Length && k < instances.Length
      ensures ok <==> Get(old(Abs()), inst).Some?
      ensures ok ==> Abs() == Get(old(Abs()), inst).value && instances[k] == Slot(Abs(), inst) && instances[k].inst == inst
    {
      k := inst % instances.Length;
      var r := instances[k];
      ok := true;
      if r.inst == 0 {
        instances[k] := r.(inst := inst, status := Ready);
      } else if r.inst < inst {
        if r.status != Done {
          ok := false;
          return;
        }
        instances[k] := CLEARED;
        instances[k] := instances[k].(inst := inst, status := Ready);
      } else if r.inst > inst {
        ok := false;
      }
    }

    /** Writes back the record of a slot. */
    method Update(k: nat, r: MRec)
      requires Valid() && k < instances.Length && k == r.inst % instances.Length
      modifies instances
      ensures Valid() && Abs() == SetSlot(old(Abs()), r) && instances[k] == r
    {
      instances[k] := r;
      assert instances[..] == old(instances[..])[k := r];
    }

    method Send(m: Msg)
      requires Valid()
      modifies this`sent
      ensures Valid() && Abs() == old(Abs()) && sent == old(sent) + [m]
    {
      sent := sent + [m];
    }

    method DoPhase1(k: nat)
      requires Valid() && k < instances.Length && k == instances[k].inst % instances.Length
      modifies this`sent, instances
      ensures Valid() && sent == old(sent) + [Phase1Msg(old(instances[k]))]
      ensures Abs() == SetSlot(old(Abs()), old(instances[k]).(status := P1Pending))
    {
      Send(NewPhase1(instances[k].inst, instances[k].ballot, 0));
      Update(k, instances[k].(status := P1Pending));
    }

    method DoPhase2(k: nat)
      requires Valid() && k < instances.Length && k == instances[k].inst % instances.Length
      modifies this`sent, instances
      ensures Valid() && sent == old(sent) + [Phase2Msg(old(instances[k]))]
      ensures Abs() == SetSlot(old(Abs()), old(instances[k]).(status := P2Pending))
      ensures instances[k] == old(instances[k]).(status := P2Pending)
    {
      Send(Phase2(instances[k].inst, instances[k].ballot, 0, instances[k].key));
      Update(k, instances[k].(status := P2Pending));
    }

    method BroadcastMapping(k: nat)
      requires Valid() && k < instances.Length
      modifies this`sent
      ensures Valid() && Abs() == old(Abs()) && sent == old(sent) + [MappingMsg(instances[k])]
    {
      var r := instances[k];
      Send(CmdMap(r.inst, r.key, if r.value.Some? then r.value.value else []));
    }

    // ----- opening instances -----

    method OpenNewInstancesP1() returns (ok: bool)
      requires Valid()
      modifies this, instances
      ensures Valid()
      ensures ok <==> OpenPhase1(cfg, old(Abs())).Some?
      ensures ok ==> (Abs(), sent) == (OpenPhase1(cfg, old(Abs())).value.0, old(sent) + OpenPhase1(cfg, old(Abs())).value.1)
    {
      hide MakeFirstBallot, Get, Slot, SetSlot;
      var active := (p1Ready + p1Ready) % WORD32;
      if active >= cfg.preexec / 2 {
        assert sent + [] == sent;
        return true;
      }
      var toOpen := cfg.preexec - active;
      var b := MakeFirstBallot(cfg.id, cfg.incarnation);
      var from, last := p1HighestOpen + 1, p1HighestOpen + toOpen;
      var i := from;
      while i <= last
        invariant from <= i <= last + 1
        invariant Valid() && sent == old(sent)
        invariant p1HighestOpen == old(p1HighestOpen) && p1Ready == old(p1Ready)
        invariant PrepareRange(old(Abs()), from, last, b) == PrepareRange(Abs(), i, last, b)
      {
        var k;
        ok, k := GetRecord(i);
        if !ok {
          return;
        }
        if instances[k].status != Ready {
          ok := false;
          return;
        }
        ghost var l1 := Abs();
        Update(k, instances[k].(status := P1Pending, ballot := b));
        assert Abs() == SetSlot(l1, Slot(l1, i).(status := P1Pending, ballot := b));
        i := i + 1;
      }
      assert PrepareRange(old(Abs()), from, last, b) == Some(Abs());
      Send(Phase1Range(from, last, b, 0));
      p1HighestOpen := p1HighestOpen + toOpen;
      p1Ready := p1Ready + toOpen;
      ok := true;
    }

    method OpenNewInstancesP2() returns (ok: bool, ghost mappings: seq<Mapping>)
      requires Valid()
      modifies this, instances
      ensures Valid()
      ensures ok <==> OpenPhase2(cfg, old(Abs()), 0).Some?
      ensures ok ==>
        && Abs() == OpenPhase2(cfg, old(Abs()), 0).value.0
        && sent == old(sent) + OpenPhase2(cfg, old(Abs()), 0).value.1
        && mappings == OpenPhase2(cfg, old(Abs()), 0).value.2
    {
      hide OpenOne;
      var count := 0;
      mappings := [];
      ok := true;
      ResumesStart(OpenPhase2(cfg, Abs(), 0));
      assert sent[|old(sent)|..] == [];
      while true
        invariant Valid() && old(sent) <= sent
        invariant Resumes(OpenPhase2(cfg, old(Abs()), 0), sent[|old(sent)|..], mappings, OpenPhase2(cfg, Abs(), count))
        decreases |queue|
      {
        ghost var l, done, given := Abs(), sent[|old(sent)|..], mappings;
        var opening;
        ghost var mapping;
        ok, opening, mapping := OpenNextInstance();
        if !ok {
          return;
        }
        if !opening {
          assert OpenPhase2(cfg, l, count) == Some((Abs(), [], []));
          return;
        }
        mappings := mappings + [mapping];
        count := count + 1;
        assert sent[|old(sent)|..] == done + OpenOne(cfg, l).sends;
        if count >= cfg.maxPerIteration {
          assert OpenPhase2(cfg, l, count - 1) == Some((Abs(), OpenOne(cfg, l).sends, [mapping]));
          return;
        }
        ResumesStep(OpenPhase2(cfg, old(Abs()), 0), done, given, OpenPhase2(cfg, l, count - 1), OpenOne(cfg, l).sends, mapping,
                    OpenPhase2(cfg, Abs(), count));
      }
    }

    /** One round of the loop of OpenNewInstancesP2; opening is false where the loop is left. */
    method OpenNextInstance() returns (ok: bool, opening: bool, ghost mapping: Mapping)
      requires Valid()
      modifies this, instances
      ensures Valid()
      ensures ok <==> !OpenOne(cfg, old(Abs())).Abort?
      ensures ok && !opening ==> OpenOne(cfg, old(Abs())) == Stop(Abs()) && sent == old(sent)
      ensures ok && opening ==>
        && OpenOne(cfg, old(Abs())).Opened? && OpenOne(cfg, old(Abs())).leader == Abs()
        && OpenOne(cfg, old(Abs())).mapping == mapping && sent == old(sent) + OpenOne(cfg, old(Abs())).sends
        && |queue| < |old(queue)|
    {
      ok, opening, mapping := true, false, Mapping(NULL_KEY, []);
      var current := highestOpen + 1;
      var room := (cfg.maxActive - (highestOpen - highestClosed) % WORD64) % WORD64;
      if room == 0 || current > p1HighestOpen || p1Ready == 0 {
        return;
      }
      var k;
      ok, k := GetRecord(current);
      if !ok {
        return;
      }
      if instances[k].status != P1Done {
        ok := instances[k].status == P1Pending;
        return;
      }
      if instances[k].ballot == 0 {
        ok := false;
        return;
      }
      if queue == [] {
        return;
      }
      if instances[k].value.Some? {
        ok := false;
        return;
      }
      mapping := AssignNext(k);
      opening := true;
    }

    /** Gives the next client value to the instance of slot k, which finished phase 1, and starts its phase 2. */
    method AssignNext(k: nat) returns (ghost mapping: Mapping)
      requires Valid() && k < instances.Length && k == instances[k].inst % instances.Length
      requires instances[k].inst == highestOpen + 1 && queue != [] && p1Ready > 0
      modifies this, instances
      ensures Valid() && mapping == Mapping(Key(cfg.id, cfg.incarnation, old(seqNumber)), old(queue[0].data))
      ensures var r' := old(instances[k]).(key := mapping.key, value := Some(mapping.bytes), status := P2Pending);
              && Abs() == SetSlot(old(Abs()), r').(queue := old(queue)[1..], seqNumber := NextSeqNumber(old(seqNumber)),
                                                   p1Ready := old(p1Ready) - 1, highestOpen := old(highestOpen) + 1)
              && sent == old(sent) + [MappingMsg(r'), Phase2Msg(r')]
    {
      var bytes := queue[0].data;
      queue := queue[1..];
      var key := Key(cfg.id, cfg.incarnation, seqNumber);
      seqNumber := (seqNumber + 1) % WORD16;
      if seqNumber == 0xFFFF {
        seqNumber := 1;
      }
      Update(k, instances[k].(key := key, value := Some(bytes)));
      p1Ready := p1Ready - 1;
      BroadcastMapping(k);
      DoPhase2(k);
      highestOpen := highestOpen + 1;
      mapping := Mapping(key, bytes);
    }

    // ----- timeouts -----

    method CheckExpiredInstances(expired: set<nat>) returns (ok: bool)
      requires Valid()
      modifies this, instances
      ensures Valid()
      ensures ok <==> CheckExpired(old(Abs()), old(highestClosed) + 1, Highest(old(Abs())), expired).Some?
      ensures ok ==>
        && Abs() == CheckExpired(old(Abs()), old(highestClosed) + 1, Highest(old(Abs())), expired).value.0
        && sent == old(sent) + CheckExpired(old(Abs()), old(highestClosed) + 1, Highest(old(Abs())), expired).value.1
    {
      hide Get, Slot;
      var last := if highestOpen > p1HighestOpen then highestOpen else p1HighestOpen;
      ghost var whole := CheckExpired(Abs(), highestClosed + 1, last, expired);
      ok := true;
      var i := highestClosed + 1;
      ContinuesStart(whole);
      assert sent[|old(sent)|..] == [];
      while i <= last
        invariant Valid() && old(sent) <= sent && ok
        invariant Continues(whole, sent[|old(sent)|..], CheckExpired(Abs(), i, last, expired))
        decreases last + 1 - i
      {
        ghost var l, before := Abs(), sent;
        ok := RepeatOne(i, i in expired);
        if !ok {
          return;
        }
        ContinuesStep(whole, before[|old(sent)|..], CheckExpired(l, i, last, expired), Repeats(Slot(Abs(), i), i in expired),
                      CheckExpired(Abs(), i + 1, last, expired));
        SliceAppend(before, Repeats(Slot(Abs(), i), i in expired), |old(sent)|);
        i := i + 1;
      }
      assert CheckExpired(Abs(), i, last, expired) == Some((Abs(), []));
      assert sent == old(sent) + sent[|old(sent)|..];
    }

    method RepeatOne(i: nat, expired: bool) returns (ok: bool)
      requires Valid()
      modifies this, instances
      ensures Valid()
      ensures ok <==> Get(old(Abs()), i).Some?
      ensures ok ==> Abs() == Get(old(Abs()), i).value && sent == old(sent) + Repeats(Slot(Abs(), i), expired)
    {
      hide Get, Slot;
      var k;
      ok, k := GetRecord(i);
      if !ok {
        return;
      }
      SetSame(Abs(), i);
      if instances[k].status == P1Pending && expired {
        DoPhase1(k);
      } else if instances[k].status == P2Pending && expired {
        BroadcastMapping(k);
        DoPhase2(k);
      }
    }

    // ----- answers from the ring -----

    method HandlePhase1RangeMsg(m: Msg) returns (ok: bool)
      requires Valid() && m.Phase1Range?
      modifies this, instances
      ensures Valid()
      ensures ok <==> HandlePhase1Range(cfg, old(Abs()), m).Some?
      ensures ok ==>
        && Abs() == HandlePhase1Range(cfg, old(Abs()), m).value.0
        && sent == old(sent) + HandlePhase1Range(cfg, old(Abs()), m).value.1
    {
      hide IsMyBallot, Get, Slot, SetSlot;
      ok := true;
      if !IsMyBallot(m.ballot, cfg.id, cfg.incarnation) {
        return;
      }
      if m.from <= highestClosed {
        ok := false;
        return;
      }
      if m.promises < cfg.quorum {
        Send(Phase1Range(m.from, m.to, m.ballot, 0));
        return;
      }
      var i := m.from;
      while i <= m.to
        invariant Valid() && sent == old(sent) && ok
        invariant FinishRange(old(Abs()), m.from, m.to) == FinishRange(Abs(), i, m.to)
        decreases m.to + 1 - i
      {
        var k;
        ok, k := GetRecord(i);
        if !ok {
          return;
        }
        if instances[k].status != P1Pending {
          ok := false;
          return;
        }
        Update(k, instances[k].(status := P1Done));
        i := i + 1;
      }
    }

    method HandlePhase1Msg(m: Msg) returns (ok: bool)
      requires Valid() && m.Phase1?
      modifies this, instances
      ensures Valid()
      ensures ok <==> HandlePhase1(cfg, old(Abs()), m).Some?
      ensures ok ==>
        && Abs() == HandlePhase1(cfg, old(Abs()), m).value.0
        && sent == old(sent) + HandlePhase1(cfg, old(Abs()), m).value.1
    {
      hide IsMyBallot, Get, Slot, SetSlot, RaiseBallot, Fits;
      ok := true;
      if m.inst <= highestClosed || !IsMyBallot(m.ballot, cfg.id, cfg.incarnation) {
        return;
      }
      var k;
      ok, k := GetRecord(m.inst);
      if !ok {
        return;
      }
      ghost var l1 := Abs();
      SetSame(l1, m.inst);
      var r := instances[k];
      if r.status != P1Pending || r.ballot != m.ballot {
        return;
      }
      AnswerPhase1(k, m);
    }

    /** The answer the record of slot k waits for. */
    method AnswerPhase1(k: nat, m: Msg)
      requires Valid() && m.Phase1? && k < instances.Length && k == instances[k].inst % instances.Length
      requires Awaited1(instances[k], m)
      modifies this, instances
      ensures Valid()
      ensures var reply := OnPhase1(cfg.quorum, old(instances[k]), m);
              && Abs() == GiveBack(cfg, SetSlot(old(Abs()), reply.rec), reply.back)
              && sent == old(sent) + reply.sends
    {
      hide RaiseBallot, SetSlot;
      ghost var l := Abs();
      var r := instances[k];
      SetTwice(l, r, r);
      if m.promises < cfg.quorum {
        if m.highestPromised != 0 {
          var raised := r.(ballot := RaiseBallot(r.ballot, m.highestPromised));
          SetTwice(l, raised, raised);
          Update(k, raised);
        }
        DoPhase1(k);
        return;
      }
      Update(k, r.(status := P1Done));
      if r.value.None? {
        return;
      }
      SetTwice(l, r.(status := P1Done), r.(status := P2Pending));
      if m.highestAccepted == 0 || m.key == r.key {
        DoPhase2(k);
        return;
      }
      ReplaceAssigned(k, m.key, m.bytes);
      DoPhase2(k);
      ReplaceTwice(cfg, l, r.(status := P1Done), r.(status := P1Done, key := m.key, value := Some(m.bytes)), instances[k],
                   if r.value.value == m.bytes then None else r.value);
    }

    /** The command found by phase 1 takes the place of the assigned one, whose value goes back to the queue
        unless it is the same. */
    method ReplaceAssigned(k: nat, key: Key, bytes: Bytes)
      requires Valid() && k < instances.Length && k == instances[k].inst % instances.Length && instances[k].value.Some?
      modifies this`queue, instances
      ensures Valid()
      ensures var r := old(instances[k]);
              && instances[k] == r.(key := key, value := Some(bytes))
              && Abs() == GiveBack(cfg, SetSlot(old(Abs()), instances[k]), if r.value.value == bytes then None else r.value)
    {
      var mine := instances[k].value.value;
      Update(k, instances[k].(key := key));
      if mine == bytes {
        return;
      }
      queue := [Elem(mine, |mine|)] + if |queue| == cfg.queueLength && queue != [] then queue[..|queue| - 1] else queue;
      Update(k, instances[k].(value := Some(bytes)));
    }

    /** A phase 2 message that went round the ring. The invariant of the leader, and that no message names an
        instance that is not open, are what LeaderInv and TotalOrderRuns prove of every run. */
    method HandlePhase2Msg(m: Msg) returns (ok: bool)
      requires Valid() && m.Phase2? && LeaderOk(cfg, Abs())
      modifies this, instances
      ensures Valid()
      ensures ok <==> HandlePhase2(cfg, old(Abs()), m).Some?
      ensures ok ==>
        && Abs() == HandlePhase2(cfg, old(Abs()), m).value.0
        && sent == old(sent) + HandlePhase2(cfg, old(Abs()), m).value.1
    {
      hide Get, Slot, SetSlot, LeaderOk, AdvanceClosed;
      ok := true;
      if m.inst <= highestClosed {
        return;
      }
      var k;
      RecordFor(cfg, Abs(), m.inst);
      ok, k := GetRecord(m.inst);
      if !ok {
        return;
      }
      SetSame(Abs(), m.inst);
      var r := instances[k];
      if r.status != P2Pending || r.ballot != m.ballot {
        return;
      }
      if r.key != m.key {
        ok := false;
        return;
      }
      if m.accepts < cfg.quorum {
        BroadcastMapping(k);
        DoPhase2(k);
        return;
      }
      ghost var l := Abs();
      Update(k, r.(status := Done));
      BroadcastAcceptance(k);
      DoneCore(cfg, l, m.inst);
      CloseFrom(k);
    }

    method BroadcastAcceptance(k: nat)
      requires Valid() && k < instances.Length && instances[k].status == Done
      modifies this`sent
      ensures Valid() && Abs() == old(Abs()) && sent == old(sent) + [Acceptance(instances[k].inst, instances[k].key)]
    {
      Send(Acceptance(instances[k].inst, instances[k].key));
    }

    /** Moves the closed bound while the record looked at is done and is the next one. */
    method CloseFrom(first: nat)
      requires Valid() && Core(cfg, Abs()) && Looks(first)
      modifies this, instances
      ensures Valid() && AdvanceClosed(old(Abs())) == Some(Abs()) && sent == old(sent)
    {
      hide Core, AdvanceClosed, Looks;
      var k := first;
      while IsNext(k)
        invariant Valid() && Core(cfg, Abs()) && Looks(k) && sent == old(sent)
        invariant AdvanceClosed(old(Abs())) == AdvanceClosed(Abs())
        decreases highestOpen - highestClosed
      {
        k := CloseOne(k);
      }
      StopsHere(k);
    }

    lemma StopsHere(k: nat)
      requires Valid() && Looks(k) && !IsNext(k)
      ensures AdvanceClosed(Abs()) == Some(Abs())
    {
      AdvanceStops(Abs(), k);
    }

    predicate IsNext(k: nat)
      reads this, instances
    {
      k < instances.Length && instances[k].status == Done && instances[k].inst == highestClosed + 1
    }

    /** The slot looked at is that of the next instance, unless that one is known to be unfinished. */
    ghost predicate Looks(k: nat)
      requires Valid()
      reads this, instances
    {
      && k < instances.Length && k == instances[k].inst % instances.Length
      && (instances[k].inst == highestClosed + 1 || HeadOpen(Abs()))
    }

    method CloseOne(k: nat) returns (next: nat)
      requires Valid() && Core(cfg, Abs()) && IsNext(k)
      modifies this, instances
      ensures Valid() && Core(cfg, Abs()) && Looks(next) && sent == old(sent)
      ensures AdvanceClosed(old(Abs())) == AdvanceClosed(Abs())
      ensures highestOpen - highestClosed < old(highestOpen - highestClosed) && highestClosed <= highestOpen
    {
      hide Core, Get, AdvanceClosed, Slot;
      DoneIsOpen(cfg, Abs(), k);
      StepClosed(cfg, Abs());
      AdvanceOnce(Abs());
      highestClosed := highestClosed + 1;
      var ok;
      ok, next := GetRecord(highestClosed + 1);
    }

    // ----- clients, learners, the periodic check -----

    /** A client value; false when the queue does not take it. */
    method HandleValueSubmit(bytes: Bytes) returns (enqueued: bool)
      requires Valid()
      modifies this`queue
      ensures Valid() && Abs() == Submit(cfg, old(Abs()), bytes)
      ensures enqueued <==> Fits(old(queue), cfg.queueLength, |bytes|)
    {
      enqueued := Fits(queue, cfg.queueLength, |bytes|);
      if enqueued {
        queue := queue + [Elem(bytes, |bytes|)];
      }
    }

    method AnswerMapRequest(inst: nat, repeat: bool) returns (ok: bool)
      requires Valid()
      modifies this, instances
      ensures Valid() && (ok <==> HandleMapRequest(old(Abs()), inst, repeat).Some?)
      ensures ok ==>
        && Abs() == HandleMapRequest(old(Abs()), inst, repeat).value.0
        && sent == old(sent) + HandleMapRequest(old(Abs()), inst, repeat).value.1
    {
      var k;
      ok, k := GetRecord(inst);
      if ok && repeat {
        BroadcastMapping(k);
      }
    }

    method AnswerChosenRequest(inst: nat) returns (ok: bool)
      requires Valid()
      modifies this, instances
      ensures Valid() && (ok <==> HandleChosenRequest(old(Abs()), inst).Some?)
      ensures ok ==>
        && Abs() == HandleChosenRequest(old(Abs()), inst).value.0
        && sent == old(sent) + HandleChosenRequest(old(Abs()), inst).value.1
    {
      var k;
      ok, k := GetRecord(inst);
      if ok && instances[k].status == Done {
        BroadcastAcceptance(k);
      }
    }

    /** Learners ask again for mappings; repeat tells, by the number of requests left, which are not ignored
        as sent too recently. */
    method HandleMapRequests(insts: seq<nat>, repeat: nat -> bool) returns (ok: bool)
      requires Valid()
      modifies this, instances
      ensures Valid()
      ensures ok <==> MapRequests(old(Abs()), insts, repeat).Some?
      ensures ok ==>
        && Abs() == MapRequests(old(Abs()), insts, repeat).value.0
        && sent == old(sent) + MapRequests(old(Abs()), insts, repeat).value.1
    {
      hide HandleMapRequest;
      ghost var whole := MapRequests(Abs(), insts, repeat);
      ok := true;
      var i := 0;
      ContinuesStart(whole);
      assert sent[|old(sent)|..] == [];
      while i < |insts|
        invariant i <= |insts| && Valid() && old(sent) <= sent && ok
        invariant Continues(whole, sent[|old(sent)|..], MapRequests(Abs(), insts[i..], repeat))
      {
        ghost var l, before := Abs(), sent;
        ok := AnswerMapRequest(insts[i], repeat(|insts| - i));
        if !ok {
          return;
        }
        assert insts[i..][1..] == insts[i + 1..] && insts[i..][0] == insts[i];
        ghost var sends := HandleMapRequest(l, insts[i], repeat(|insts| - i)).value.1;
        ContinuesStep(whole, before[|old(sent)|..], MapRequests(l, insts[i..], repeat), sends,
                      MapRequests(Abs(), insts[i + 1..], repeat));
        SliceAppend(before, sends, |old(sent)|);
        i := i + 1;
      }
      assert insts[i..] == [];
    }

    method HandleChosenRequests(insts: seq<nat>) returns (ok: bool)
      requires Valid()
      modifies this, instances
      ensures Valid()
      ensures ok <==> ChosenRequests(old(Abs()), insts).Some?
      ensures ok ==>
        && Abs() == ChosenRequests(old(Abs()), insts).value.0
        && sent == old(sent) + ChosenRequests(old(Abs()), insts).value.1
    {
      hide HandleChosenRequest;
      ghost var whole := ChosenRequests(Abs(), insts);
      ok := true;
      var i := 0;
      ContinuesStart(whole);
      assert sent[|old(sent)|..] == [];
      while i < |insts|
        invariant i <= |insts| && Valid() && old(sent) <= sent && ok
        invariant Continues(whole, sent[|old(sent)|..], ChosenRequests(Abs(), insts[i..]))
      {
        ghost var l, before := Abs(), sent;
        ok := AnswerChosenRequest(insts[i]);
        if !ok {
          return;
        }
        assert insts[i..][1..] == insts[i + 1..] && insts[i..][0] == insts[i];
        ghost var sends := HandleChosenRequest(l, insts[i]).value.1;
        ContinuesStep(whole, before[|old(sent)|..], ChosenRequests(l, insts[i..]), sends, ChosenRequests(Abs(), insts[i + 1..]));
        SliceAppend(before, sends, |old(sent)|);
        i := i + 1;
      }
      assert insts[i..] == [];
    }

    method PeriodicCheck(expired: set<nat>) returns (ok: bool, ghost mappings: seq<Mapping>)
      requires Valid()
      modifies this, instances
      ensures Valid()
      ensures ok <==> Periodic(cfg, old(Abs()), expired).Some?
      ensures ok ==>
        && Abs() == Periodic(cfg, old(Abs()), expired).value.0
        && sent == old(sent) + Periodic(cfg, old(Abs()), expired).value.1
        && mappings == Periodic(cfg, old(Abs()), expired).value.2
    {
      hide OpenPhase1, CheckExpired, OpenPhase2;
      mappings := [];
      ok := OpenNewInstancesP1();
      if ok {
        ok := CheckExpiredInstances(expired);
        if ok {
          ok, mappings := OpenNewInstancesP2();
        }
      }
    }
  }

  /** The rest of a loop, given what it sent and assigned so far, completes the whole. */
  ghost predicate Resumes(whole: Option<(Leader, seq<Msg>, seq<Mapping>)>, sent: seq<Msg>, given: seq<Mapping>,
                    rest: Option<(Leader, seq<Msg>, seq<Mapping>)>) {
    whole == match rest
             case None => None
             case Some((l, sends, mappings)) => Some((l, sent + sends, given + mappings))
  }

  lemma ResumesStart(whole: Option<(Leader, seq<Msg>, seq<Mapping>)>)
    ensures Resumes(whole, [], [], whole)
  {
    if whole.Some? {
      var (l, sends, mappings) := whole.value;
      assert [] + sends == sends && [] + mappings == mappings;
    }
  }

  lemma ResumesStep(whole: Option<(Leader, seq<Msg>, seq<Mapping>)>, sent: seq<Msg>, given: seq<Mapping>,
                    before: Option<(Leader, seq<Msg>, seq<Mapping>)>, sends: seq<Msg>, mapping: Mapping,
                    rest: Option<(Leader, seq<Msg>, seq<Mapping>)>)
    requires Resumes(whole, sent, given, before) && Resumes(before, sends, [mapping], rest)
    ensures Resumes(whole, sent + sends, given + [mapping], rest)
  {
    if rest.Some? {
      assert sent + (sends + rest.value.1) == sent + sends + rest.value.1;
      assert given + ([mapping] + rest.value.2) == given + [mapping] + rest.value.2;
    }
  }

  lemma SetSame(l: Leader, inst: nat)
    requires |l.slots| > 0 && Slot(l, inst).inst == inst
    ensures SetSlot(l, Slot(l, inst)) == l
  {
  }

  /** Below the phase-1 bound the record is there; beyond it, what the store returns is not in phase 2. */
  lemma RecordFor(c: Config, l: Leader, inst: nat)
    requires LeaderOk(c, l) && l.highestClosed < inst
    ensures |l.slots| > 0 && (inst <= l.p1HighestOpen ==> Get(l, inst) == Some(l))
    ensures inst > l.p1HighestOpen && Get(l, inst).Some? ==> Slot(Get(l, inst).value, inst).status == Ready
  {
    if inst <= l.p1HighestOpen {
      GetWithin(c, l, inst);
    } else {
      assert SlotOk(l, inst % |l.slots|);
    }
  }

  lemma DoneCore(c: Config, l: Leader, inst: nat)
    requires LeaderOk(c, l) && l.highestClosed < inst <= l.p1HighestOpen && |l.slots| > 0
    requires Slot(l, inst).inst == inst && Slot(l, inst).status == P2Pending
    ensures var l' := SetSlot(l, Slot(l, inst).(status := Done));
            Core(c, l') && (inst == l.highestClosed + 1 || HeadOpen(l'))
  {
    GetWithin(c, l, inst);
    SetWithin(c, l, Slot(l, inst).(status := Done));
    if inst != l.highestClosed + 1 && l.highestClosed < l.highestOpen {
      SlotAfter(l, Slot(l, inst).(status := Done), l.highestClosed + 1);
      SameRecord(l, inst, l.highestClosed + 1);
      assert Slot(l, l.highestClosed + 1).inst == l.highestClosed + 1;
    }
  }

  lemma DoneIsOpen(c: Config, l: Leader, k: nat)
    requires Core(c, l) && k < |l.slots| && l.slots[k].inst == l.highestClosed + 1 && l.slots[k].status == Done
    ensures l.highestClosed < l.highestOpen && Slot(l, l.highestClosed + 1) == l.slots[k]
  {
    assert SlotOk(l, k);
  }

  lemma SetTwice(l: Leader, r1: MRec, r2: MRec)
    requires |l.slots| > 0
    ensures r1.inst == r2.inst ==> SetSlot(SetSlot(l, r1), r2) == SetSlot(l, r2)
  {
  }

  lemma ReplaceTwice(c: Config, l: Leader, r1: MRec, r2: MRec, r3: MRec, back: Option<Bytes>)
    requires |l.slots| > 0 && r1.inst == r2.inst == r3.inst
    ensures SetSlot(GiveBack(c, SetSlot(SetSlot(l, r1), r2), back), r3) == GiveBack(c, SetSlot(l, r3), back)
  {
  }

  lemma AdvanceStops(l: Leader, k: nat)
    requires k < |l.slots| && k == l.slots[k].inst % |l.slots|
    requires !(l.slots[k].status == Done && l.slots[k].inst == l.highestClosed + 1)
    requires l.slots[k].inst == l.highestClosed + 1 || HeadOpen(l)
    ensures AdvanceClosed(l) == Some(l)
  {
    if l.slots[k].inst == l.highestClosed + 1 {
      assert Slot(l, l.highestClosed + 1) == l.slots[k];
    }
  }
}
