/** The learner's delivery queue as a map from instances to what is known about them. */
module DeliverySpec {
  import opened RingTypes

  /** What is known of an undelivered instance: a mapping, the chosen key, or both. */
  datatype Info = Mapped(key: Key, bytes: Bytes) | Final(key: Key) | Deliverable(key: Key, bytes: Bytes)

  /** `log` holds the commands delivered so far, instances 1..delivered in order. */
  datatype Queue = Queue(size: nat, delivered: nat, log: seq<Bytes>, know: map<nat, Info>)

  function InitQueue(size: nat): Queue {
    Queue(size, 0, [], map[])
  }

  predicate InWindow(q: Queue, inst: nat) {
    q.delivered < inst < q.delivered + q.size
  }

  predicate HeadReady(q: Queue) {
    q.delivered + 1 in q.know && q.know[q.delivered + 1].Deliverable?
  }

  /** Deliver instance after instance until the next one is not deliverable. */
  function DeliverLoop(q: Queue): Queue
    decreases |q.know|
  {
    if HeadReady(q) then
      var i := q.delivered + 1;
      assert |q.know - {i}| < |q.know| by {
        assert (q.know - {i}).Keys == q.know.Keys - {i};
        assert q.know.Keys == (q.know - {i}).Keys + {i};
      }
      DeliverLoop(Queue(q.size, i, q.log + [q.know[i].bytes], q.know - {i}))
    else
      q
  }

  function DeliverOne(q: Queue): Queue
    requires HeadReady(q)
  {
    var i := q.delivered + 1;
    Queue(q.size, i, q.log + [q.know[i].bytes], q.know - {i})
  }

  lemma DeliverLoopStep(q: Queue)
    ensures DeliverLoop(q) == if HeadReady(q) then DeliverLoop(DeliverOne(q)) else q
    ensures HeadReady(q) ==> |DeliverOne(q).know| < |q.know|
  {
    if HeadReady(q) {
      var i := q.delivered + 1;
      assert (q.know - {i}).Keys == q.know.Keys - {i};
      assert q.know.Keys == (q.know - {i}).Keys + {i};
    }
  }

  /** None when an assertion of the handler fails. */
  function HandleCommandMap(q: Queue, inst: nat, key: Key, bytes: Bytes): Option<Queue> {
    if !InWindow(q, inst) then
      Some(q)
    else if inst !in q.know then
      Some(q.(know := q.know[inst := Mapped(key, bytes)]))
    else
      match q.know[inst]
      case Deliverable(_, _) => Some(q)
      case Mapped(k, b) =>
        if k != key then Some(q.(know := q.know[inst := Mapped(key, bytes)])) else if b == bytes then Some(q) else None
      case Final(k) =>
        if k == key then Some(DeliverLoop(q.(know := q.know[inst := Deliverable(key, bytes)]))) else Some(q)
  }

  /** A chosen key that differs from the mapping known throws the mapping away; the key itself is not marked final. */
  function HandleAcceptance(q: Queue, inst: nat, key: Key): Option<Queue> {
    if !InWindow(q, inst) then
      Some(q)
    else if inst !in q.know then
      Some(q.(know := q.know[inst := Final(key)]))
    else
      match q.know[inst]
      case Deliverable(k, _) => if k == key then Some(q) else None
      case Mapped(k, b) =>
        if k == key then
          Some(DeliverLoop(q.(know := q.know[inst := Deliverable(key, b)])))
        else
          Some(q.(know := q.know - {inst}))
      case Final(k) => if k == key then Some(q) else None
  }

  function HandleMsg(q: Queue, m: Msg): Option<Queue> {
    match m
    case CmdMap(inst, key, bytes) => HandleCommandMap(q, inst, key, bytes)
    case Acceptance(inst, key) => HandleAcceptance(q, inst, key)
    case _ => Some(q)
  }

  function HandleAll(q: Queue, ms: seq<Msg>): Option<Queue> {
    if ms == [] then
      Some(q)
    else
      match HandleAll(q, ms[..|ms| - 1])
      case None => None
      case Some(q') => HandleMsg(q', ms[|ms| - 1])
  }

  // ----- what holds between messages -----

  ghost predicate Shape(q: Queue) {
    && q.size > 0 && |q.log| == q.delivered
    && forall i :: i in q.know ==> InWindow(q, i)
  }

  /** The window holds only undelivered instances and the head waits for more. */
  ghost predicate QueueInv(q: Queue) {
    Shape(q) && !HeadReady(q)
  }

  /** What is left of the knowledge when everything up to d was delivered. */
  function Above(know: map<nat, Info>, d: nat): map<nat, Info> {
    map i | i in know && i > d :: know[i]
  }

  lemma DeliverOneKeeps(q: Queue)
    requires Shape(q) && HeadReady(q)
    ensures Shape(DeliverOne(q))
    ensures forall d :: d >= q.delivered + 1 ==> Above(DeliverOne(q).know, d) == Above(q.know, d)
  {
  }

  /** The deliver loop delivers the longest deliverable run at the head, in order, and nothing else. */
  lemma {:induction false} DeliverLoopRun(q: Queue)
    requires Shape(q)
    ensures QueueInv(DeliverLoop(q)) && DeliverLoop(q).size == q.size
    ensures DeliverLoop(q).delivered >= q.delivered
    ensures forall i :: q.delivered < i <= DeliverLoop(q).delivered ==>
      i in q.know && q.know[i].Deliverable? && DeliverLoop(q).log[i - 1] == q.know[i].bytes
    ensures DeliverLoop(q).log[..q.delivered] == q.log
    ensures DeliverLoop(q).know == Above(q.know, DeliverLoop(q).delivered)
    decreases |q.know|
  {
    hide DeliverLoop, Above;
    DeliverLoopStep(q);
    if HeadReady(q) {
      var i := q.delivered + 1;
      var q1 := DeliverOne(q);
      DeliverOneKeeps(q);
      DeliverLoopRun(q1);
      var d := DeliverLoop(q1);
      assert d.log[..q.delivered] == d.log[..i][..q.delivered];
      assert d.log[i - 1] == d.log[..i][i - 1] == q.know[i].bytes;
      forall j | q.delivered < j <= d.delivered
        ensures j in q.know && q.know[j].Deliverable? && d.log[j - 1] == q.know[j].bytes
      {
        if j > i {
          assert j in q1.know && q1.know[j] == q.know[j];
        }
      }
    } else {
      NothingBelow(q);
    }
  }

  lemma NothingBelow(q: Queue)
    requires Shape(q)
    ensures Above(q.know, q.delivered) == q.know
  {
  }

  // ----- learners of one truth -----

  /** What consensus decided: the chosen key of each instance, and the bytes each key stands for. */
  datatype Truth = Truth(chosen: nat -> Key, bytes: (nat, Key) -> Bytes)

  predicate TrueMsg(t: Truth, m: Msg) {
    && (m.CmdMap? ==> m.bytes == t.bytes(m.inst, m.key))
    && (m.Acceptance? ==> m.key == t.chosen(m.inst))
  }

  predicate TrueInfo(t: Truth, i: nat, info: Info) {
    match info
    case Mapped(key, bytes) => bytes == t.bytes(i, key)
    case Final(key) => key == t.chosen(i)
    case Deliverable(key, bytes) => key == t.chosen(i) && bytes == t.bytes(i, key)
  }

  ghost predicate TrueQueue(t: Truth, q: Queue) {
    && Shape(q)
    && (forall i :: i in q.know ==> TrueInfo(t, i, q.know[i]))
    && (forall j :: 0 <= j < |q.log| ==> q.log[j] == t.bytes(j + 1, t.chosen(j + 1)))
  }

  lemma DeliverLoopTrue(t: Truth, q: Queue)
    requires TrueQueue(t, q)
    ensures TrueQueue(t, DeliverLoop(q)) && QueueInv(DeliverLoop(q))
  {
    DeliverLoopRun(q);
    var d := DeliverLoop(q);
    forall j | 0 <= j < |d.log|
      ensures d.log[j] == t.bytes(j + 1, t.chosen(j + 1))
    {
      if j < q.delivered {
        assert d.log[j] == d.log[..q.delivered][j];
      } else {
        assert j + 1 in q.know && TrueInfo(t, j + 1, q.know[j + 1]);
      }
    }
  }

  /** No assertion of the handlers fails, and what is delivered is the chosen command of each instance. */
  lemma HandleTrue(t: Truth, q: Queue, m: Msg)
    requires TrueQueue(t, q) && QueueInv(q) && TrueMsg(t, m)
    ensures HandleMsg(q, m).Some?
    ensures TrueQueue(t, HandleMsg(q, m).value) && QueueInv(HandleMsg(q, m).value)
    ensures HandleMsg(q, m).value.delivered >= q.delivered && HandleMsg(q, m).value.size == q.size
  {
    if (m.CmdMap? || m.Acceptance?) && InWindow(q, m.inst) && m.inst in q.know {
      var info := q.know[m.inst];
      assert TrueInfo(t, m.inst, info);
      if m.CmdMap? && info.Final? && info.key == m.key {
        Complete(t, q, m.inst, Deliverable(m.key, m.bytes));
      } else if m.Acceptance? && info.Mapped? && info.key == m.key {
        Complete(t, q, m.inst, Deliverable(m.key, info.bytes));
      }
    }
  }

  lemma Complete(t: Truth, q: Queue, inst: nat, info: Info)
    requires TrueQueue(t, q) && InWindow(q, inst) && TrueInfo(t, inst, info)
    ensures var d := DeliverLoop(q.(know := q.know[inst := info]));
            TrueQueue(t, d) && QueueInv(d) && d.delivered >= q.delivered && d.size == q.size
  {
    DeliverLoopTrue(t, q.(know := q.know[inst := info]));
    DeliverLoopRun(q.(know := q.know[inst := info]));
  }

  /** Whatever true messages arrive, in whatever order and however often: no assertion fails and the log is
      the chosen commands of instances 1, 2, 3, ..., each once. */
  lemma {:induction false} LogIsChosen(t: Truth, size: nat, ms: seq<Msg>)
    requires size > 0 && forall m :: m in ms ==> TrueMsg(t, m)
    ensures HandleAll(InitQueue(size), ms).Some?
    ensures var q := HandleAll(InitQueue(size), ms).value;
            TrueQueue(t, q) && QueueInv(q) && q.log == seq(q.delivered, j requires 0 <= j => t.bytes(j + 1, t.chosen(j + 1)))
  {
    if ms != [] {
      LogIsChosen(t, size, ms[..|ms| - 1]);
      HandleTrue(t, HandleAll(InitQueue(size), ms[..|ms| - 1]).value, ms[|ms| - 1]);
    }
  }

  /** Two learners fed any true messages deliver logs one of which is a prefix of the other. */
  lemma LogsComparable(t: Truth, size1: nat, ms1: seq<Msg>, size2: nat, ms2: seq<Msg>)
    requires size1 > 0 && size2 > 0
    requires (forall m :: m in ms1 ==> TrueMsg(t, m)) && (forall m :: m in ms2 ==> TrueMsg(t, m))
    ensures HandleAll(InitQueue(size1), ms1).Some? && HandleAll(InitQueue(size2), ms2).Some?
    ensures var log1, log2 := HandleAll(InitQueue(size1), ms1).value.log, HandleAll(InitQueue(size2), ms2).value.log;
            log1 <= log2 || log2 <= log1
  {
    LogIsChosen(t, size1, ms1);
    LogIsChosen(t, size2, ms2);
  }

  // ----- when the two messages of the head suffice -----

  /** Completing the head delivers it. */
  lemma HeadDelivered(q: Queue, key: Key, bytes: Bytes)
    requires Shape(q) && q.size > 1
    ensures DeliverLoop(q.(know := q.know[q.delivered + 1 := Deliverable(key, bytes)])).delivered > q.delivered
  {
    DeliverLoopRun(q.(know := q.know[q.delivered + 1 := Deliverable(key, bytes)]));
  }

  /** A mapping of another key than the chosen one waits at the head. */
  predicate WrongMapping(q: Queue, key: Key) {
    var i := q.delivered + 1;
    i in q.know && q.know[i].Mapped? && q.know[i].key != key
  }

  /** The mapping of the chosen key followed by its acceptance always gets the head delivered. */
  lemma MapThenAcceptance(t: Truth, q: Queue)
    requires TrueQueue(t, q) && QueueInv(q) && q.size > 1
    ensures var i := q.delivered + 1;
            var key := t.chosen(i);
            var q1 := HandleCommandMap(q, i, key, t.bytes(i, key));
            && q1.Some? && var q2 := HandleAcceptance(q1.value, i, key);
               q2.Some? && q2.value.delivered >= i
  {
    hide DeliverLoop;
    var i := q.delivered + 1;
    var key := t.chosen(i);
    assert i in q.know ==> TrueInfo(t, i, q.know[i]);
    HeadDelivered(q, key, t.bytes(i, key));
    if i in q.know && q.know[i].Final? {
    } else {
      var q1 := q.(know := q.know[i := Mapped(key, t.bytes(i, key))]);
      assert HandleCommandMap(q, i, key, t.bytes(i, key)) == Some(q1) || q1 == q;
      assert q1.know[i := Deliverable(key, t.bytes(i, key))] == q.know[i := Deliverable(key, t.bytes(i, key))];
    }
  }

  /** In the other order the head is delivered exactly when no mapping of another key was waiting for it. */
  lemma AcceptanceThenMap(t: Truth, q: Queue)
    requires TrueQueue(t, q) && QueueInv(q) && q.size > 1
    ensures var i := q.delivered + 1;
            var key := t.chosen(i);
            var q1 := HandleAcceptance(q, i, key);
            && q1.Some? && var q2 := HandleCommandMap(q1.value, i, key, t.bytes(i, key));
               && q2.Some?
               && (q2.value.delivered >= i <==> !WrongMapping(q, key))
  {
    hide DeliverLoop;
    var i := q.delivered + 1;
    var key := t.chosen(i);
    assert i in q.know ==> TrueInfo(t, i, q.know[i]);
    HeadDelivered(q, key, t.bytes(i, key));
    if i in q.know && q.know[i].Mapped? {
    } else {
      var q1 := q.(know := q.know[i := Final(key)]);
      assert HandleAcceptance(q, i, key) == Some(q1) || q1 == q;
      assert q1.know[i := Deliverable(key, t.bytes(i, key))] == q.know[i := Deliverable(key, t.bytes(i, key))];
    }
  }
}
