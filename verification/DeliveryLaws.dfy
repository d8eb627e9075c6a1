/** What a learner's delivery queue remembers of each message, and exactly what it delivers. */
module DeliveryLaws {
  import opened RingTypes
  import opened DeliverySpec

  // ----- what one message teaches -----

  function MappingKnown(q: Queue, i: nat): Option<Mapping> {
    if i in q.know && q.know[i].Mapped? then Some(Mapping(q.know[i].key, q.know[i].bytes))
    else if i in q.know && q.know[i].Deliverable? then Some(Mapping(q.know[i].key, q.know[i].bytes))
    else None
  }

  function ChoiceKnown(q: Queue, i: nat): Option<Key> {
    if i in q.know && (q.know[i].Final? || q.know[i].Deliverable?) then Some(q.know[i].key) else None
  }

  /** Nothing is forgotten or learned about other instances, except that some may be delivered. */
  ghost predicate OthersSame(q: Queue, q': Queue, inst: nat) {
    forall i :: i != inst && i > q'.delivered ==> MappingKnown(q', i) == MappingKnown(q, i) && ChoiceKnown(q', i) == ChoiceKnown(q, i)
  }

  /** What was delivered just now was complete, but for what this message brought of its own instance. */
  ghost predicate WasComplete(q: Queue, q': Queue, inst: nat) {
    forall i :: i != inst && q.delivered < i <= q'.delivered ==> MappingKnown(q, i).Some? && ChoiceKnown(q, i).Some?
  }

  /** An instance from the next one to the last that has a place in the queue. */
  predicate HasPlace(d: nat, size: nat, i: nat) {
    d + 1 <= i <= d + size - 1
  }

  lemma LoopKeepsKnown(q: Queue, inst: nat, info: Info)
    requires Shape(q) && InWindow(q, inst)
    ensures var q' := DeliverLoop(q.(know := q.know[inst := info]));
            && q'.delivered >= q.delivered && OthersSame(q, q', inst) && WasComplete(q, q', inst)
            && (q'.delivered < inst ==> inst in q'.know && q'.know[inst] == info)
  {
    hide DeliverLoop;
    var q1 := q.(know := q.know[inst := info]);
    DeliverLoopRun(q1);
    forall i | i != inst && q.delivered < i <= DeliverLoop(q1).delivered
      ensures MappingKnown(q, i).Some? && ChoiceKnown(q, i).Some?
    {
      assert i in q1.know && q1.know[i].Deliverable?;
    }
  }

  /** A mapping with a place in the queue never touches a known choice. It is kept unless another key is known to be
      chosen: the last one if several came, the chosen one for ever. */
  lemma MappingTeaches(q: Queue, inst: nat, key: Key, bytes: Bytes)
    requires QueueInv(q) && HasPlace(q.delivered, q.size, inst) && HandleCommandMap(q, inst, key, bytes).Some?
    ensures var q' := HandleCommandMap(q, inst, key, bytes).value;
            && OthersSame(q, q', inst) && WasComplete(q, q', inst) && q'.delivered >= q.delivered
            && (inst <= q'.delivered ==> ChoiceKnown(q, inst) == Some(key))
            && (inst > q'.delivered ==>
                  && ChoiceKnown(q', inst) == ChoiceKnown(q, inst)
                  && MappingKnown(q', inst) ==
                     if ChoiceKnown(q, inst).None? || (ChoiceKnown(q, inst) == Some(key) && MappingKnown(q, inst).None?)
                     then Some(Mapping(key, bytes)) else MappingKnown(q, inst))
  {
    hide DeliverLoop;
    if inst in q.know && q.know[inst] == Final(key) {
      LoopKeepsKnown(q, inst, Deliverable(key, bytes));
    }
  }

  /** An acceptance with a place in the queue makes the choice known and keeps the mapping of its key; a mapping of
      another key is dropped, and the choice with it. */
  lemma AcceptanceTeaches(q: Queue, inst: nat, key: Key)
    requires QueueInv(q) && HasPlace(q.delivered, q.size, inst) && HandleAcceptance(q, inst, key).Some?
    ensures var q' := HandleAcceptance(q, inst, key).value;
            var other := MappingKnown(q, inst).Some? && MappingKnown(q, inst).value.key != key;
            && OthersSame(q, q', inst) && WasComplete(q, q', inst) && q'.delivered >= q.delivered
            && (inst <= q'.delivered ==> MappingKnown(q, inst).Some? && MappingKnown(q, inst).value.key == key)
            && (inst > q'.delivered ==>
                  && ChoiceKnown(q', inst) == (if other then None else Some(key))
                  && MappingKnown(q', inst) == if other then None else MappingKnown(q, inst))
  {
    hide DeliverLoop;
    if inst in q.know && q.know[inst].Mapped? && q.know[inst].key == key {
      LoopKeepsKnown(q, inst, Deliverable(key, q.know[inst].bytes));
    }
  }

  /** A message without a place in the queue, and one of the ring, changes nothing. */
  lemma NoPlaceNoChange(q: Queue, m: Msg)
    requires (m.CmdMap? || m.Acceptance?) ==> !HasPlace(q.delivered, q.size, m.inst)
    ensures HandleMsg(q, m) == Some(q)
  {
  }

  // ----- what is delivered -----

  function DeliveredBy(size: nat, ms: seq<Msg>): nat {
    match HandleAll(InitQueue(size), ms)
    case None => 0
    case Some(q) => q.delivered
  }

  /** The instances whose mapping arrived while they had a place in the queue. */
  function MappingsTaken(size: nat, ms: seq<Msg>): set<nat> {
    if ms == [] then
      {}
    else
      var before, m := ms[..|ms| - 1], ms[|ms| - 1];
      var d := DeliveredBy(size, before);
      MappingsTaken(size, before) + if m.CmdMap? && d < m.inst < d + size then {m.inst} else {}
  }

  /** The instances whose acceptance arrived while they had a place in the queue. */
  function ChoicesTaken(size: nat, ms: seq<Msg>): set<nat> {
    if ms == [] then
      {}
    else
      var before, m := ms[..|ms| - 1], ms[|ms| - 1];
      var d := DeliveredBy(size, before);
      ChoicesTaken(size, before) + if m.Acceptance? && d < m.inst < d + size then {m.inst} else {}
  }

  /** True messages of a history with one key an instance. */
  ghost predicate OneKey(t: Truth, ms: seq<Msg>) {
    forall m :: m in ms ==> TrueMsg(t, m) && (m.CmdMap? ==> m.key == t.chosen(m.inst))
  }

  /** The queue knows of undelivered instances exactly what it took, and of the delivered ones it took both. */
  ghost predicate Remembers(t: Truth, q: Queue, maps: set<nat>, choices: set<nat>) {
    && (forall i :: i in maps || i in choices ==> 0 < i < q.delivered + q.size)
    && (forall i :: 0 < i <= q.delivered ==> i in maps && i in choices)
    && (forall i :: q.delivered < i ==> (i in maps <==> MappingKnown(q, i).Some?) && (i in choices <==> ChoiceKnown(q, i).Some?))
    && (forall i :: i in q.know ==> q.know[i].key == t.chosen(i))
  }

  lemma KnownKey(q: Queue, i: nat)
    requires i in q.know
    ensures MappingKnown(q, i).Some? || ChoiceKnown(q, i).Some?
    ensures MappingKnown(q, i).Some? ==> MappingKnown(q, i).value.key == q.know[i].key
    ensures ChoiceKnown(q, i).Some? ==> ChoiceKnown(q, i).value == q.know[i].key
  {
  }

  lemma {:induction false} RemembersAll(t: Truth, size: nat, ms: seq<Msg>)
    requires size > 0 && OneKey(t, ms)
    ensures HandleAll(InitQueue(size), ms).Some?
    ensures var q := HandleAll(InitQueue(size), ms).value;
            && TrueQueue(t, q) && QueueInv(q) && q.size == size
            && Remembers(t, q, MappingsTaken(size, ms), ChoicesTaken(size, ms))
  {
    if ms != [] {
      hide HandleMsg, TrueQueue, QueueInv, Remembers, TrueMsg;
      var before, m := ms[..|ms| - 1], ms[|ms| - 1];
      RemembersAll(t, size, before);
      var q := HandleAll(InitQueue(size), before).value;
      DeliverySpec.HandleTrue(t, q, m);
      RemembersOne(t, q, m, MappingsTaken(size, before), ChoicesTaken(size, before));
    } else {
      assert forall i :: MappingKnown(InitQueue(size), i).None? && ChoiceKnown(InitQueue(size), i).None?;
    }
  }

  lemma RemembersMapping(t: Truth, q: Queue, m: Msg, maps: set<nat>, choices: set<nat>)
    requires TrueQueue(t, q) && QueueInv(q) && TrueMsg(t, m) && m.CmdMap? && HasPlace(q.delivered, q.size, m.inst)
    requires Remembers(t, q, maps, choices) && HandleMsg(q, m).Some? && m.key == t.chosen(m.inst)
    ensures Remembers(t, HandleMsg(q, m).value, maps + {m.inst}, choices)
  {
    hide DeliverLoop;
    MappingTeaches(q, m.inst, m.key, m.bytes);
    var q' := HandleMsg(q, m).value;
    DeliverySpec.HandleTrue(t, q, m);
    hide HandleMsg;
    forall i | i in q'.know
      ensures q'.know[i].key == t.chosen(i)
    {
      KnownKey(q', i);
      if i in q.know {
        KnownKey(q, i);
      }
    }
  }

  lemma RemembersAcceptance(t: Truth, q: Queue, m: Msg, maps: set<nat>, choices: set<nat>)
    requires TrueQueue(t, q) && QueueInv(q) && TrueMsg(t, m) && m.Acceptance? && HasPlace(q.delivered, q.size, m.inst)
    requires Remembers(t, q, maps, choices) && HandleMsg(q, m).Some?
    ensures Remembers(t, HandleMsg(q, m).value, maps, choices + {m.inst})
  {
    hide DeliverLoop;
    AcceptanceTeaches(q, m.inst, m.key);
    var q' := HandleMsg(q, m).value;
    DeliverySpec.HandleTrue(t, q, m);
    hide HandleMsg;
    forall i | i in q'.know
      ensures q'.know[i].key == t.chosen(i)
    {
      KnownKey(q', i);
      if i in q.know {
        KnownKey(q, i);
      }
    }
  }

  lemma RemembersOne(t: Truth, q: Queue, m: Msg, maps: set<nat>, choices: set<nat>)
    requires TrueQueue(t, q) && QueueInv(q) && TrueMsg(t, m) && (m.CmdMap? ==> m.key == t.chosen(m.inst))
    requires Remembers(t, q, maps, choices) && HandleMsg(q, m).Some?
    ensures var placed := (m.CmdMap? || m.Acceptance?) && q.delivered < m.inst < q.delivered + q.size;
            Remembers(t, HandleMsg(q, m).value, maps + (if m.CmdMap? && placed then {m.inst} else {}),
                      choices + if m.Acceptance? && placed then {m.inst} else {})
  {
    assert maps + {} == maps && choices + {} == choices;
    hide Remembers, HandleMsg;
    if !((m.CmdMap? || m.Acceptance?) && HasPlace(q.delivered, q.size, m.inst)) {
      NoPlaceNoChange(q, m);
    } else if m.CmdMap? {
      RemembersMapping(t, q, m, maps, choices);
    } else {
      RemembersAcceptance(t, q, m, maps, choices);
    }
  }

  /** Something of the next instance is missing. */
  lemma HeadLacks(q: Queue)
    requires QueueInv(q)
    ensures MappingKnown(q, q.delivered + 1).None? || ChoiceKnown(q, q.delivered + 1).None?
  {
  }

  /** Over any true messages, when every instance has one key: a learner has delivered instances 1 to n exactly when the
      mapping and the acceptance of each of them arrived while it had a place in the queue, that is above what was
      delivered and less than the queue's size above it. */
  lemma DeliversExactly(t: Truth, size: nat, ms: seq<Msg>, n: nat)
    requires size > 0 && OneKey(t, ms)
    ensures HandleAll(InitQueue(size), ms).Some?
    ensures var log := HandleAll(InitQueue(size), ms).value.log;
            && (n <= |log| <==> forall i :: 0 < i <= n ==> i in MappingsTaken(size, ms) && i in ChoicesTaken(size, ms))
            && forall j :: 0 <= j < |log| ==> log[j] == t.bytes(j + 1, t.chosen(j + 1))
  {
    hide TrueMsg;
    RemembersAll(t, size, ms);
    HeadLacks(HandleAll(InitQueue(size), ms).value);
  }
}
