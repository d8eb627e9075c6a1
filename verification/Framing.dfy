/** Batching of messages into UDP packets: each message is preceded by its size and type. */
module Framing {
  import opened RingTypes

  const MAX_MESSAGE_SIZE := 8980
  const MAX_UDP_PAYLOAD := 8988
  /** A 16-bit size, two bytes of padding, a 32-bit type. */
  const HEADER_SIZE := 8

  type MsgType = t: nat | t < 0x1_0000_0000

  datatype Frame = Frame(mtype: MsgType, data: Bytes)

  function Header(size: nat, t: MsgType, pad: Bytes): (h: Bytes)
    requires size < 0x1_0000 && |pad| == 2
    ensures |h| == HEADER_SIZE
  {
    [size % 256, size / 256, pad[0], pad[1], t % 256, t / 256 % 256, t / 256 / 256 % 256, t / 256 / 256 / 256]
  }

  /** Little-endian numbers of two and four bytes. */
  function Number2(b0: nat, b1: nat): nat {
    b0 + 256 * b1
  }

  function Number4(b0: nat, b1: nat, b2: nat, b3: nat): nat {
    b0 + 256 * b1 + 65536 * b2 + 16777216 * b3
  }

  function SizeOf(p: Bytes): nat
    requires |p| >= HEADER_SIZE
  {
    Number2(p[0], p[1])
  }

  function TypeOf(p: Bytes): MsgType
    requires |p| >= HEADER_SIZE
  {
    Number4(p[4], p[5], p[6], p[7])
  }

  /** Where the fields lie, lowest byte first. */
  lemma Layout(p: Bytes, size: nat, t: MsgType, pad: Bytes)
    requires |p| >= 8 && size < 0x1_0000 && |pad| == 2
    ensures SizeOf(p) == p[0] as int + 0x100 * p[1] as int
    ensures TypeOf(p) == p[4] as int + 0x100 * p[5] as int + 0x1_0000 * p[6] as int + 0x100_0000 * p[7] as int
    ensures |Header(size, t, pad)| == 8 && Header(size, t, pad)[2..4] == pad
  {
  }

  lemma HeaderRoundTrip(size: nat, t: MsgType, pad: Bytes, rest: Bytes)
    requires size < 0x1_0000 && |pad| == 2
    ensures SizeOf(Header(size, t, pad) + rest) == size && TypeOf(Header(size, t, pad) + rest) == t
  {
    hide Number2, Number4;
    var p := Header(size, t, pad) + rest;
    assert forall i :: 0 <= i < HEADER_SIZE ==> p[i] == Header(size, t, pad)[i];
    Digits2(size);
    Digits4(t);
  }

  lemma Digits2(x: nat)
    ensures Number2(x % 256, x / 256) == x
  {
  }

  lemma Digits4(x: nat)
    ensures Number4(x % 256, x / 256 % 256, x / 256 / 256 % 256, x / 256 / 256 / 256) == x
  {
    Digits2(x);
    Digits2(x / 256);
    Digits2(x / 256 / 256);
  }

  /** The message at the front of the rest of a packet; None when it claims more bytes than there are. */
  function Head(p: Bytes): Option<Frame> {
    if |p| < HEADER_SIZE || |p| < HEADER_SIZE + SizeOf(p) then
      None
    else
      Some(Frame(TypeOf(p), p[HEADER_SIZE..HEADER_SIZE + SizeOf(p)]))
  }

  function Tail(p: Bytes): (t: Bytes)
    requires Head(p).Some?
    ensures |t| == |p| - HEADER_SIZE - |Head(p).value.data|
  {
    p[HEADER_SIZE + SizeOf(p)..]
  }

  /** The messages a receiver gets from a packet. */
  function Parse(p: Bytes): seq<Frame>
    decreases |p|
  {
    if p == [] || Head(p).None? then [] else [Head(p).value] + Parse(Tail(p))
  }

  /** The packet is a sequence of whole messages. */
  predicate Exact(p: Bytes)
    decreases |p|
  {
    p == [] || (Head(p).Some? && Exact(Tail(p)))
  }

  /** The bytes at which parsing stops. */
  function Rest(p: Bytes): Bytes
    decreases |p|
  {
    if p == [] || Head(p).None? then p else Rest(Tail(p))
  }

  /** The receiver looks at the size field of whatever is left before it checks that anything of it was received.
      With a single byte left at the very end of its buffer, half of that field is outside the buffer. */
  predicate ReadsBeyond(p: Bytes) {
    |p| == MAX_UDP_PAYLOAD && |Rest(p)| == 1
  }

  lemma {:induction false} WholeLeavesNothing(p: Bytes, q: Bytes)
    requires Exact(p)
    ensures Rest(p + q) == Rest(q)
    decreases |p|
  {
    hide Head, SizeOf;
    if p == [] {
      assert p + q == q;
    } else {
      HeadAppend(p, q);
      WholeLeavesNothing(Tail(p), q);
    }
  }

  /** No packet of whole messages makes the receiver read beyond its buffer. */
  lemma WholeStaysInside(p: Bytes)
    requires Exact(p)
    ensures !ReadsBeyond(p)
  {
    WholeLeavesNothing(p, []);
    assert p + [] == p;
  }

  /** A message of 8979 bytes and one more byte do, whatever the bytes. */
  lemma OneByteTooMany(f: Frame, pad: Bytes, extra: Byte)
    requires |f.data| == 8979 && |pad| == 2
    ensures ReadsBeyond(Encode(f, pad) + [extra]) && |Encode(f, pad) + [extra]| == 8988
  {
    hide Exact, Head, Header;
    EncodeRoundTrip(f, pad);
    WholeLeavesNothing(Encode(f, pad), [extra]);
    TooShort([extra]);
  }

  lemma TooShort(p: Bytes)
    requires |p| < HEADER_SIZE
    ensures Rest(p) == p
  {
  }

  lemma HeadAppend(p: Bytes, q: Bytes)
    requires Head(p).Some?
    ensures Head(p + q) == Head(p) && Tail(p + q) == Tail(p) + q
  {
    assert forall i :: 0 <= i < HEADER_SIZE ==> (p + q)[i] == p[i];
    assert SizeOf(p + q) == SizeOf(p) && TypeOf(p + q) == TypeOf(p);
    hide SizeOf, TypeOf;
    assert (p + q)[HEADER_SIZE..HEADER_SIZE + SizeOf(p)] == p[HEADER_SIZE..HEADER_SIZE + SizeOf(p)];
  }

  /** Parsing goes over the end of whole messages. */
  lemma {:induction false} ParseAppend(p: Bytes, q: Bytes)
    requires Exact(p)
    ensures Parse(p + q) == Parse(p) + Parse(q) && (Exact(q) ==> Exact(p + q))
    decreases |p|
  {
    hide Head, SizeOf;
    if p == [] {
      assert p + q == q;
    } else {
      HeadAppend(p, q);
      ParseAppend(Tail(p), q);
    }
  }

  /** One framed message. */
  function Encode(f: Frame, pad: Bytes): Bytes
    requires |f.data| < 0x1_0000 && |pad| == 2
  {
    Header(|f.data|, f.mtype, pad) + f.data
  }

  lemma EncodeRoundTrip(f: Frame, pad: Bytes)
    requires |f.data| < 0x1_0000 && |pad| == 2
    ensures Exact(Encode(f, pad)) && Parse(Encode(f, pad)) == [f]
  {
    var p := Encode(f, pad);
    HeaderRoundTrip(|f.data|, f.mtype, pad, f.data);
    hide SizeOf, TypeOf, Header;
    assert p[HEADER_SIZE..HEADER_SIZE + |f.data|] == f.data;
    assert Head(p) == Some(f) && Tail(p) == [];
    assert Exact([]) && Parse([]) == [];
  }

  /** Adding a message after whole messages, whatever bytes the padding holds. */
  lemma AddFrame(p: Bytes, f: Frame, pad: Bytes)
    requires Exact(p) && |f.data| < 0x1_0000 && |pad| == 2
    ensures Exact(p + Encode(f, pad)) && Parse(p + Encode(f, pad)) == Parse(p) + [f]
  {
    EncodeRoundTrip(f, pad);
    ParseAppend(p, Encode(f, pad));
  }

  /** Of any packet, however corrupted, exactly the messages of its longest whole prefix are delivered. */
  lemma {:induction false} LongestPrefix(p: Bytes) returns (good: Bytes, bad: Bytes)
    ensures p == good + bad && Exact(good) && Parse(p) == Parse(good)
    ensures bad == [] || Head(bad).None?
    decreases |p|
  {
    hide Head, SizeOf;
    if p == [] || Head(p).None? {
      good, bad := [], p;
    } else {
      var good', bad' := LongestPrefix(Tail(p));
      var first := FirstOf(p);
      good, bad := first + good', bad';
      assert p == good + bad;
      ParseAppend(first, good');
    }
  }

  /** The bytes of the first message alone. */
  lemma FirstOf(p: Bytes) returns (first: Bytes)
    requires Head(p).Some?
    ensures p == first + Tail(p) && Exact(first) && Parse(first) == [Head(p).value]
  {
    first := p[..HEADER_SIZE + SizeOf(p)];
    assert forall i :: 0 <= i < HEADER_SIZE ==> first[i] == p[i];
    assert SizeOf(first) == SizeOf(p) && TypeOf(first) == TypeOf(p);
    hide SizeOf, TypeOf;
    assert first[HEADER_SIZE..HEADER_SIZE + SizeOf(p)] == p[HEADER_SIZE..HEADER_SIZE + SizeOf(p)];
    assert Head(first) == Head(p) && Tail(first) == [];
    assert Exact([]) && Parse([]) == [];
  }

  /** Parsing packets one after the other. */
  function ParseAll(packets: seq<Bytes>): seq<Frame> {
    if packets == [] then [] else ParseAll(packets[..|packets| - 1]) + Parse(packets[|packets| - 1])
  }

  lemma ParseAllAppend(packets: seq<Bytes>, p: Bytes)
    ensures ParseAll(packets + [p]) == ParseAll(packets) + Parse(p)
  {
    assert (packets + [p])[..|packets|] == packets;
  }

  class UdpSender {
    const sendBuf: array<Byte>
    var currentBufSize: nat
    /** The packets given to the socket. */
    var packets: seq<Bytes>

    ghost predicate Valid()
      reads this, sendBuf
    {
      && sendBuf.Length == MAX_UDP_PAYLOAD
      && (currentBufSize == 0 || currentBufSize < MAX_MESSAGE_SIZE - HEADER_SIZE)
      && Exact(sendBuf[..currentBufSize])
      && forall p :: p in packets ==> Exact(p) && 0 < |p| <= MAX_UDP_PAYLOAD
    }

    /** The messages a receiver of all packets, the one being filled included, would get. */
    ghost function Wire(): seq<Frame>
      requires currentBufSize <= sendBuf.Length
      reads this, sendBuf
    {
      ParseAll(packets) + Parse(sendBuf[..currentBufSize])
    }

    constructor ()
      ensures Valid() && fresh(sendBuf) && Wire() == [] && packets == []
    {
      sendBuf := new Byte[MAX_UDP_PAYLOAD](_ => 0);
      currentBufSize, packets := 0, [];
      new;
      assert sendBuf[..0] == [];
    }

    method ForceFlush()
      requires currentBufSize <= sendBuf.Length == MAX_UDP_PAYLOAD && Exact(sendBuf[..currentBufSize])
      requires forall p :: p in packets ==> Exact(p) && 0 < |p| <= MAX_UDP_PAYLOAD
      modifies this
      ensures Valid() && currentBufSize == 0 && Wire() == ParseAll(packets) == old(Wire())
      ensures packets == old(packets) + if old(currentBufSize) == 0 then [] else [old(sendBuf[..currentBufSize])]
    {
      assert sendBuf[..0] == [];
      if currentBufSize == 0 {
        return;
      }
      ParseAllAppend(packets, sendBuf[..currentBufSize]);
      packets := packets + [sendBuf[..currentBufSize]];
      currentBufSize := 0;
    }

    /** Every message of up to 8980 bytes gets onto the wire after all earlier ones, the buffer never overflows; a
        longer message is refused. What was buffered is sent first exactly when the message does not fit after it
        within 8980 bytes, and the buffer is sent at once exactly when no other message could follow. */
    method Send(data: Bytes, t: MsgType)
      requires Valid()
      modifies this, sendBuf
      ensures Valid()
      ensures Wire() == if |data| > 8980 then old(Wire()) else old(Wire()) + [Frame(t, data)]
      ensures |data| > 8980 ==> packets == old(packets) && currentBufSize == old(currentBufSize)
      ensures |data| <= 8980 ==>
        var first := old(currentBufSize) > 0 && old(currentBufSize) + |data| + 8 > 8980;
        var used := (if first then 0 else old(currentBufSize)) + |data| + 8;
        var sent := old(packets) + if first then [old(sendBuf[..currentBufSize])] else [];
        if used >= 8972 then
          currentBufSize == 0 && |packets| == |sent| + 1 && packets[..|sent|] == sent && |packets[|sent|]| == used
        else
          currentBufSize == used && packets == sent
    {
      hide Exact, Parse, ParseAll;
      if |data| > MAX_MESSAGE_SIZE {
        return;
      }
      var totalSize := |data| + HEADER_SIZE;
      if currentBufSize + totalSize > MAX_MESSAGE_SIZE {
        ForceFlush();
      }
      assert currentBufSize + totalSize <= sendBuf.Length;
      Put(data, t);
      if MAX_MESSAGE_SIZE - currentBufSize <= HEADER_SIZE {
        ForceFlush();
      }
    }

    /** Writes header and data at the end of the buffer; the padding keeps whatever was there. */
    method Put(data: Bytes, t: MsgType)
      requires Valid() && |data| <= MAX_MESSAGE_SIZE && currentBufSize + HEADER_SIZE + |data| <= sendBuf.Length
      modifies this`currentBufSize, sendBuf
      ensures currentBufSize == old(currentBufSize) + HEADER_SIZE + |data| && Exact(sendBuf[..currentBufSize])
      ensures Wire() == old(Wire()) + [Frame(t, data)]
    {
      hide Exact, Parse, Header;
      ghost var before := sendBuf[..currentBufSize];
      ghost var pad := [sendBuf[currentBufSize + 2], sendBuf[currentBufSize + 3]];
      PutHeader(|data|, t);
      CopyData(currentBufSize + HEADER_SIZE, data);
      AddFrame(before, Frame(t, data), pad);
      assert before + Header(|data|, t, pad) + data == before + Encode(Frame(t, data), pad);
      currentBufSize := currentBufSize + (HEADER_SIZE + |data|);
    }

    method PutHeader(size: nat, t: MsgType)
      requires size < 0x1_0000 && currentBufSize + HEADER_SIZE <= sendBuf.Length
      modifies sendBuf
      ensures sendBuf[..currentBufSize + HEADER_SIZE] ==
        old(sendBuf[..currentBufSize]) + Header(size, t, [old(sendBuf[currentBufSize + 2]), old(sendBuf[currentBufSize + 3])])
    {
      var at := currentBufSize;
      var h := Header(size, t, [sendBuf[at + 2], sendBuf[at + 3]]);
      sendBuf[at], sendBuf[at + 1] := size % 256, size / 256;
      sendBuf[at + 4], sendBuf[at + 5] := t % 256, t / 256 % 256;
      sendBuf[at + 6], sendBuf[at + 7] := t / 256 / 256 % 256, t / 256 / 256 / 256;
      assert sendBuf[at..at + HEADER_SIZE] == h;
      assert sendBuf[..at] == old(sendBuf[..at]);
      assert sendBuf[..at + HEADER_SIZE] == sendBuf[..at] + sendBuf[at..at + HEADER_SIZE];
    }

    /** memcpy into the buffer. */
    method CopyData(at: nat, data: Bytes)
      requires at + |data| <= sendBuf.Length
      modifies sendBuf
      ensures sendBuf[..at + |data|] == old(sendBuf[..at]) + data
    {
      var i := 0;
      while i < |data|
        invariant i <= |data| && sendBuf[..at + i] == old(sendBuf[..at]) + data[..i]
      {
        sendBuf[at + i] := data[i];
        assert sendBuf[..at + i + 1] == sendBuf[..at + i] + [data[i]];
        i := i + 1;
      }
    }
  }

  /** The message at an offset of the receive buffer; None when it does not fit the datagram. The size field is
      read first, wherever it lies: `outside` is the byte after the buffer, and beyond tells that it was read. */
  method ReadMessage(recvBuf: array<Byte>, datasize: nat, offset: nat, outside: Byte) returns (f: Option<Frame>, beyond: bool)
    requires offset < datasize <= recvBuf.Length
    ensures f == Head(recvBuf[offset..datasize])
    ensures beyond <==> offset + 1 == recvBuf.Length
  {
    f := None;
    ghost var rest := recvBuf[offset..datasize];
    beyond := offset + 1 >= recvBuf.Length;
    var size := Number2(recvBuf[offset], if beyond then outside else recvBuf[offset + 1]);
    assert |rest| >= HEADER_SIZE ==> size == SizeOf(rest);
    if offset + HEADER_SIZE + size > datasize {
      return;
    }
    var t: MsgType := Number4(recvBuf[offset + 4], recvBuf[offset + 5], recvBuf[offset + 6], recvBuf[offset + 7]);
    assert size == SizeOf(rest) && t == TypeOf(rest);
    f := Some(Frame(t, recvBuf[offset + HEADER_SIZE..offset + HEADER_SIZE + size]));
    SliceOfSlice(recvBuf[..], offset, datasize, HEADER_SIZE, HEADER_SIZE + size);
  }

  lemma SliceOfSlice(p: Bytes, from: nat, upto: nat, i: nat, j: nat)
    requires from <= upto <= |p| && i <= j <= upto - from
    ensures p[from..upto][i..j] == p[from + i..from + j]
  {
    var a, b := p[from..upto][i..j], p[from + i..from + j];
    assert forall k :: 0 <= k < j - i ==> a[k] == p[from + (i + k)] && b[k] == p[from + i + k];
    assert a == b;
  }

  /** The receive loop: the 16-bit offset never wraps, the loop ends, it delivers what Parse says, and it reads
      beyond the buffer exactly when a datagram that fills it leaves a single byte after its whole messages. */
  method ReadPacket(recvBuf: array<Byte>, datasize: nat, outside: Byte) returns (delivered: seq<Frame>, beyond: bool)
    requires datasize <= recvBuf.Length == MAX_UDP_PAYLOAD
    ensures delivered == Parse(recvBuf[..datasize])
    ensures beyond <==> ReadsBeyond(recvBuf[..datasize])
  {
    hide Head, Parse, Rest;
    NoWrap(datasize);
    NothingLeft(recvBuf[datasize..datasize]);
    var udatasize := datasize % 0x1_0000;
    var offset := 0;
    delivered, beyond := [], false;
    while offset < udatasize
      invariant offset <= udatasize == datasize && !beyond
      invariant delivered + Parse(recvBuf[offset..datasize]) == Parse(recvBuf[..datasize])
      invariant Rest(recvBuf[offset..datasize]) == Rest(recvBuf[..datasize])
      decreases udatasize - offset
    {
      var f;
      f, beyond := ReadMessage(recvBuf, udatasize, offset, outside);
      NextMessage(recvBuf[..], offset, datasize);
      if f.None? {
        break;
      }
      delivered := delivered + [f.value];
      NoWrap(offset + (|f.value.data| + HEADER_SIZE));
      offset := (offset + (|f.value.data| + HEADER_SIZE)) % 0x1_0000;
    }
  }

  lemma NothingLeft(p: Bytes)
    requires |p| == 0
    ensures Parse(p) == [] && Rest(p) == []
  {
  }

  lemma NoWrap(x: nat)
    requires x < 0x1_0000
    ensures x % 0x1_0000 == x
  {
  }

  lemma NextMessage(p: Bytes, offset: nat, datasize: nat)
    requires offset <= datasize <= |p|
    ensures Head(p[offset..datasize]).None? ==>
      Parse(p[offset..datasize]) == [] && Rest(p[offset..datasize]) == p[offset..datasize]
    ensures Head(p[offset..datasize]).Some? ==>
      var f := Head(p[offset..datasize]).value;
      var next := offset + (|f.data| + HEADER_SIZE);
      && next <= datasize && next > offset + 1
      && Parse(p[offset..datasize]) == [f] + Parse(p[next..datasize])
      && Rest(p[offset..datasize]) == Rest(p[next..datasize])
  {
    var rest := p[offset..datasize];
    if Head(rest).Some? {
      var next := offset + (|Head(rest).value.data| + HEADER_SIZE);
      assert Tail(rest) == p[next..datasize];
    }
  }
}
