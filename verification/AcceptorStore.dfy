/** The memory of an acceptor: records with pointers to commands, the fixed command slots, and the buffers
    allocated for second mappings. */
module AcceptorStore {
  import opened RingTypes
  import opened AcceptorSpec

  /** A command is in the fixed slot of its record or in an allocated buffer. Each allocation has a new address. */
  datatype Ptr = Null | InSlot | Heap(addr: nat)

  datatype CRec = CRec(inst: nat, ballot: nat, acceptBallot: nat,
                       acceptedKey: Key, acceptedSize: nat, accepted: Ptr,
                       proposedKey: Key, proposedSize: nat, proposed: Ptr)

  const CLEARED := CRec(0, 0, 0, NULL_KEY, 0, Null, NULL_KEY, 0, Null)

  type Memory = map<nat, Bytes>

  /** memcpy to the start of a buffer. */
  function CopyInto(buf: Bytes, data: Bytes): (r: Bytes)
    ensures |r| >= |data| && r[..|data|] == data
  {
    data + if |buf| > |data| then buf[|data|..] else []
  }

  /** The accepted command is in the slot. A mapping that is not accepted is in the slot too while nothing is
      accepted, and in a buffer of its own otherwise. */
  predicate RecValid(r: CRec, buf: Bytes, h: Memory, next: nat) {
    && r.acceptedSize <= |buf|
    && (match r.accepted
        case Null => r.acceptedKey == NULL_KEY && r.acceptedSize == 0 && r.acceptBallot == 0
        case InSlot => r.acceptedKey != NULL_KEY && r.acceptBallot > 0
        case Heap(_) => false)
    && match r.proposed
       case Null => r.proposedKey == NULL_KEY && r.proposedSize == 0
       case InSlot => r.accepted.Null? && r.proposedKey != NULL_KEY && r.proposedSize <= |buf|
       case Heap(a) => r.accepted.InSlot? && a < next && if a in h then LiveSecond(r, h[a]) else StaleSecond(r)
  }

  predicate LiveSecond(r: CRec, buf: Bytes) {
    |buf| == r.proposedSize && r.proposedKey != NULL_KEY && r.proposedKey != r.acceptedKey
  }

  predicate StaleSecond(r: CRec) {
    r.proposedKey == NULL_KEY && r.proposedSize == 0
  }

  /** The record still points to a buffer that was freed. */
  predicate Stale(r: CRec, h: Memory) {
    r.proposed.Heap? && r.proposed.addr !in h
  }

  ghost predicate Distinct(rs: seq<CRec>) {
    forall j, k :: 0 <= j < |rs| && 0 <= k < |rs| && j != k && rs[j].proposed.Heap? && rs[k].proposed.Heap? ==>
      rs[j].proposed.addr != rs[k].proposed.addr
  }

  ghost predicate StoreValid(rs: seq<CRec>, cs: seq<Bytes>, h: Memory, next: nat) {
    && |rs| == |cs| > 0 && Distinct(rs)
    && (forall k :: 0 <= k < |rs| ==> RecValid(rs[k], cs[k], h, next))
    && (forall a :: a in h ==> a < next)
  }

  function Secondary(r: CRec, buf: Bytes, h: Memory): Option<Mapping>
    requires r.proposed.InSlot? ==> r.proposedSize <= |buf|
  {
    match r.proposed
    case Null => None
    case InSlot => Some(Mapping(r.proposedKey, buf[..r.proposedSize]))
    case Heap(a) => if a in h then Some(Mapping(r.proposedKey, h[a])) else None
  }

  function AbsRec(r: CRec, buf: Bytes, h: Memory): Rec
    requires r.acceptedSize <= |buf| && (r.proposed.InSlot? ==> r.proposedSize <= |buf|)
  {
    Rec(r.inst, r.ballot, r.acceptBallot,
        if r.accepted.InSlot? then Some(Mapping(r.acceptedKey, buf[..r.acceptedSize])) else None,
        Secondary(r, buf, h))
  }

  function AbsAll(rs: seq<CRec>, cs: seq<Bytes>, h: Memory): (s: seq<Rec>)
    requires |rs| == |cs|
    requires forall k :: 0 <= k < |rs| ==> rs[k].acceptedSize <= |cs[k]| && (rs[k].proposed.InSlot? ==> rs[k].proposedSize <= |cs[k]|)
    ensures |s| == |rs| && forall k :: 0 <= k < |s| ==> s[k] == AbsRec(rs[k], cs[k], h)
  {
    seq(|rs|, k requires 0 <= k < |rs| => AbsRec(rs[k], cs[k], h))
  }

  // ----- who owns the allocated buffers -----

  function Owned(rs: seq<CRec>): set<nat> {
    set k | 0 <= k < |rs| && rs[k].proposed.Heap? :: rs[k].proposed.addr
  }

  /** Buffers that no record points to any more: they can never be freed. */
  function Lost(rs: seq<CRec>, h: Memory): set<nat> {
    h.Keys - Owned(rs)
  }

  function StaleSlots(rs: seq<CRec>, h: Memory): set<nat> {
    set k | 0 <= k < |rs| && Stale(rs[k], h)
  }

  // ----- changing one record -----

  /** The memory differs only at the buffer of record r and at new addresses. */
  ghost predicate OthersKept(r: CRec, h: Memory, h': Memory, next: nat) {
    forall a: nat :: a < next && r.proposed != Heap(a) ==> (a in h' <==> a in h) && (a in h ==> h'[a] == h[a])
  }

  predicate OwnOrNew(r: CRec, r': CRec, next: nat) {
    r'.proposed.Heap? ==> r'.proposed == r.proposed || r'.proposed.addr >= next
  }

  lemma UpdateOne(rs: seq<CRec>, cs: seq<Bytes>, h: Memory, next: nat, k: nat, r': CRec, buf': Bytes, h': Memory, next': nat)
    requires StoreValid(rs, cs, h, next) && k < |rs| && next <= next'
    requires RecValid(r', buf', h', next') && OthersKept(rs[k], h, h', next) && OwnOrNew(rs[k], r', next)
    requires forall a :: a in h' ==> a < next'
    ensures StoreValid(rs[k := r'], cs[k := buf'], h', next')
    ensures AbsAll(rs[k := r'], cs[k := buf'], h') == AbsAll(rs, cs, h)[k := AbsRec(r', buf', h')]
    ensures StaleSlots(rs[k := r'], h') == if Stale(r', h') then StaleSlots(rs, h) + {k} else StaleSlots(rs, h) - {k}
  {
    var rs', cs' := rs[k := r'], cs[k := buf'];
    forall j | 0 <= j < |rs| && j != k
      ensures RecValid(rs'[j], cs'[j], h', next') && AbsRec(rs'[j], cs'[j], h') == AbsRec(rs[j], cs[j], h)
      ensures Stale(rs'[j], h') == Stale(rs[j], h)
    {
      assert RecValid(rs[j], cs[j], h, next);
    }
  }

  /** What the change does to the buffers nobody owns. */
  lemma LostAfter(rs: seq<CRec>, cs: seq<Bytes>, h: Memory, next: nat, k: nat, r': CRec, h': Memory)
    requires StoreValid(rs, cs, h, next) && k < |rs|
    requires OthersKept(rs[k], h, h', next) && OwnOrNew(rs[k], r', next)
    requires forall a :: a in h' && a >= next ==> r'.proposed == Heap(a)
    ensures Lost(rs[k := r'], h') == Lost(rs, h) +
            if rs[k].proposed.Heap? && rs[k].proposed.addr in h' && r'.proposed != rs[k].proposed then {rs[k].proposed.addr} else {}
  {
    var rs' := rs[k := r'];
    forall a: nat
      ensures a in Owned(rs') <==> r'.proposed == Heap(a) || (a in Owned(rs) && rs[k].proposed != Heap(a))
    {
      OwnedAfter(rs, k, r', a);
    }
    forall a: nat | a in Owned(rs)
      ensures a < next
    {
      var j :| 0 <= j < |rs| && rs[j].proposed == Heap(a);
      assert RecValid(rs[j], cs[j], h, next);
    }
  }

  lemma OwnedAfter(rs: seq<CRec>, k: nat, r': CRec, a: nat)
    requires Distinct(rs) && k < |rs|
    ensures a in Owned(rs[k := r']) <==> r'.proposed == Heap(a) || (a in Owned(rs) && rs[k].proposed != Heap(a))
  {
    var rs' := rs[k := r'];
    if a in Owned(rs) && rs[k].proposed != Heap(a) {
      var j :| 0 <= j < |rs| && rs[j].proposed.Heap? && rs[j].proposed.addr == a;
      assert rs'[j] == rs[j];
    }
    if a in Owned(rs') && r'.proposed != Heap(a) {
      var j :| 0 <= j < |rs'| && rs'[j].proposed.Heap? && rs'[j].proposed.addr == a;
      assert rs'[j] == rs[j];
    }
    if r'.proposed == Heap(a) {
      assert rs'[k].proposed.Heap?;
    }
  }
}
