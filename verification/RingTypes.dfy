/** Values and messages of Ring Paxos. */
module RingTypes {
  datatype Option<+T> = None | Some(value: T)

  type Byte = b: int | 0 <= b < 256

  type Bytes = seq<Byte>

  /** Identifier of a client command: consensus runs on keys, not on command bytes. */
  datatype Key = Key(mcaster: nat, incarnation: nat, seqnum: nat)

  const NULL_KEY := Key(0, 0, 0)

  datatype Mapping = Mapping(key: Key, bytes: Bytes)

  function KeyOf(m: Option<Mapping>): Key {
    if m.Some? then m.value.key else NULL_KEY
  }

  function BytesOf(m: Option<Mapping>): Bytes {
    if m.Some? then m.value.bytes else []
  }

  /** The messages that acceptors, leaders and learners exchange. */
  datatype Msg =
    | Phase1(inst: nat, ballot: nat, promises: nat, highestAccepted: nat, highestPromised: nat, key: Key, bytes: Bytes)
    | Phase1Range(from: nat, to: nat, ballot: nat, promises: nat)
    | Phase2(inst: nat, ballot: nat, accepts: nat, key: Key)
    | CmdMap(inst: nat, key: Key, bytes: Bytes)
    | Acceptance(inst: nat, key: Key)

  predicate RingMsg(m: Msg) {
    m.Phase1? || m.Phase1Range? || m.Phase2?
  }

  /** A fresh phase 1 request, before any acceptor has seen it. */
  function NewPhase1(inst: nat, ballot: nat, promises: nat): Msg {
    Phase1(inst, ballot, promises, 0, 0, NULL_KEY, [])
  }

  /** memory comparison that stops at a NUL byte, as strncmp does; both sides have the same length. */
  predicate SameText(a: Bytes, b: Bytes)
    requires |a| == |b|
  {
    a == [] || (a[0] == b[0] && (a[0] == 0 || SameText(a[1..], b[1..])))
  }

  lemma {:induction false} SameTextReflexive(a: Bytes)
    ensures SameText(a, a)
  {
    if a != [] {
      SameTextReflexive(a[1..]);
    }
  }

  // ----- what a loop sent so far, and what it still has to send -----

  /** The result of a whole loop is its state and messages so far completed by the result of the rest. */
  ghost predicate Continues<S>(whole: Option<(S, seq<Msg>)>, sent: seq<Msg>, rest: Option<(S, seq<Msg>)>) {
    whole == match rest
             case None => None
             case Some((s, sends)) => Some((s, sent + sends))
  }

  lemma ContinuesStart<S>(whole: Option<(S, seq<Msg>)>)
    ensures Continues(whole, [], whole)
  {
    if whole.Some? {
      var (s, sends) := whole.value;
      assert [] + sends == sends;
    }
  }

  lemma ContinuesStep<S>(whole: Option<(S, seq<Msg>)>, sent: seq<Msg>, before: Option<(S, seq<Msg>)>, sends: seq<Msg>,
                         rest: Option<(S, seq<Msg>)>)
    requires Continues(whole, sent, before) && Continues(before, sends, rest)
    ensures Continues(whole, sent + sends, rest)
  {
    if rest.Some? {
      assert sent + (sends + rest.value.1) == sent + sends + rest.value.1;
    }
  }

  lemma SliceAppend<T>(a: seq<T>, b: seq<T>, n: nat)
    requires n <= |a|
    ensures (a + b)[n..] == a[n..] + b
  {
  }
}
