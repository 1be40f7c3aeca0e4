// The transfers of one CPX transaction (cpx_spi.c): requests, their length rules, and what goes over
// the wire in both directions.

module CpxTransfer {
  import opened Prelude

  // sizeof(cpx_spi_header_t): a little-endian length and two bytes of routing
  const HEADER_LENGTH := 4
  const MAX_PACKET_LENGTH := 4092
  const MTU := MAX_PACKET_LENGTH - HEADER_LENGTH

  // cpx_target_e and cpx_function_e, as far as they are used
  const CPX_T_WIFI_HOST := 3
  const CPX_T_GAP := 4
  const CPX_F_STREAMER := 6

  // Bit fields of a struct
  type Bits2 = x: int | 0 <= x < 4
  type Bits3 = x: int | 0 <= x < 8
  type Bits6 = x: int | 0 <= x < 64

  // cpx_header_t
  datatype CpxHeader = CpxHeader(destination: Bits3, source: Bits3, lastPacket: bool, reserved: bool, purpose: Bits6,
                                 version: Bits2)
  {
    // Its fields from the low end of two bytes on
    function Low(): U8 {
      destination + 8 * source + (if lastPacket then 64 else 0) + (if reserved then 128 else 0)
    }

    // `purpose` is the field called function.
    function High(): U8 { purpose + 64 * version }
  }

  // How the host declares the same two bytes: bits 0 to 2, 3 to 5, 6 and 7, then 0 to 5 and 6 to 7
  function Field(b: U8, from: nat, width: nat): nat {
    (b / Pow2(from)) % Pow2(width)
  }

  function Routing(wire: seq<U8>): (h: CpxHeader)
    requires |wire| >= HEADER_LENGTH
  {
    Powers();
    CpxHeader(Field(wire[2], 0, 3), Field(wire[2], 3, 3), Field(wire[2], 6, 1) == 1, Field(wire[2], 7, 1) == 1,
              Field(wire[3], 0, 6), Field(wire[3], 6, 2))
  }

  lemma Powers()
    ensures Pow2(0) == 1 && Pow2(1) == 2 && Pow2(2) == 4 && Pow2(3) == 8 && Pow2(6) == 64 && Pow2(7) == 128
  {
    assert Pow2(4) == 16 && Pow2(5) == 32;
  }

  // What one end packs the other unpacks, and the bytes say nothing else.
  lemma RoutingRoundTrip(h: CpxHeader, wire: seq<U8>)
    requires |wire| >= HEADER_LENGTH
    ensures Routing(wire) == h <==> wire[2] == h.Low() && wire[3] == h.High()
  {
    Powers();
    hide Pow2;
    hide Field;
    LowFields(h, wire[2]);
    HighFields(h, wire[3]);
  }

  lemma LowFields(h: CpxHeader, b: U8)
    ensures b == h.Low() <==>
      Field(b, 0, 3) == h.destination && Field(b, 3, 3) == h.source && (Field(b, 6, 1) == 1) == h.lastPacket
      && (Field(b, 7, 1) == 1) == h.reserved
  {
    LowFieldValues(b);
    hide Field;
    Digits(b, h.destination, h.source, if h.lastPacket then 1 else 0, if h.reserved then 1 else 0);
  }

  lemma Digits(b: U8, d: Bits3, s: Bits3, l: nat, r: nat)
    requires l <= 1 && r <= 1
    ensures b == d + 8 * s + 64 * l + 128 * r <==> b % 8 == d && b / 8 % 8 == s && b / 64 % 2 == l && b / 128 == r
    ensures b / 128 <= 1
  {
    var n: int := b;
    assert n == 8 * (n / 8) + n % 8 && n / 8 == 8 * (n / 64) + n / 8 % 8 && n / 64 == 2 * (n / 128) + n / 64 % 2;
  }

  lemma LowFieldValues(b: U8)
    ensures Field(b, 0, 3) == b % 8 && Field(b, 3, 3) == b / 8 % 8
    ensures Field(b, 6, 1) == b / 64 % 2 && Field(b, 7, 1) == b / 128
  {
    Powers();
    hide Pow2;
  }

  lemma HighFields(h: CpxHeader, b: U8)
    ensures b == h.High() <==> Field(b, 0, 6) == h.purpose && Field(b, 6, 2) == h.version
  {
    Powers();
    hide Pow2;
  }

  // CPX_HEADER_INIT
  function HeaderInit(destination: Bits3, purpose: Bits6): CpxHeader {
    CpxHeader(destination, CPX_T_GAP, true, false, purpose, 0)
  }

  // The two bytes in front of every frame that GAP8 streams
  lemma StreamerRouting()
    ensures var h := HeaderInit(CPX_T_WIFI_HOST, CPX_F_STREAMER); h.Low() == 0x63 && h.High() == 0x06
  {
  }

  function HeaderBytes(length: nat, cpx: CpxHeader): (b: seq<U8>)
    requires length < 0x1_0000
    ensures |b| == HEADER_LENGTH
  {
    [length % 256, length / 256, cpx.Low(), cpx.High()]
  }

  // How either end reads a packet
  function LengthOf(wire: seq<U8>): nat
    requires |wire| >= HEADER_LENGTH
  {
    var low: int, high: int := wire[0], wire[1];
    low + 256 * high
  }

  // A buffer of the caller: its address and its bytes. An empty one may be NULL.
  datatype Buffer = Buffer(address: nat, bytes: seq<U8>) {
    predicate Aligned() { address % 4 == 0 && |bytes| % 4 == 0 }
  }

  // cpx_spi_send_req_t. `fault`: one of the assertions on alignment and length.
  class SendReq {
    var cpx: CpxHeader
    var length: nat
    var head: Buffer
    var tail: Buffer
    var fault: bool

    // What every request that met no assertion satisfies
    predicate Formed()
      reads this
    {
      && head.Aligned() && tail.Aligned()
      && length == |head.bytes| + |tail.bytes| <= MTU
    }

    // cpx_spi_send_req_init
    constructor (cpx: CpxHeader, head: Buffer, tail: Buffer)
      ensures this.cpx == cpx && this.head == head && this.tail == tail
      ensures if head.Aligned() && tail.Aligned() && |head.bytes| + |tail.bytes| <= MTU then Formed()
        && !fault else fault
    {
      this.cpx, length, fault := cpx, 0, false;
      this.head, this.tail := Buffer(0, []), Buffer(0, []);
      new;
      SetHead(head);
      SetTail(tail);
    }

    method ComputeLength()
      modifies this`length, this`fault
      ensures length == |head.bytes| + |tail.bytes|
      ensures fault == (old(fault) || length > MTU)
    {
      var packetLength := |head.bytes| + |tail.bytes|;
      if packetLength > MTU {
        fault := true;
      }
      length := packetLength;
    }

    method SetHead(payload: Buffer)
      modifies this
      ensures head == payload && tail == old(tail) && cpx == old(cpx) && length == |head.bytes| + |tail.bytes|
      ensures fault == (old(fault) || !payload.Aligned() || length > MTU)
      ensures !fault && old(tail).Aligned() ==> Formed()
    {
      if payload.address % 4 != 0 {
        fault := true;
      }
      if |payload.bytes| % 4 != 0 {
        fault := true;
      }
      head := payload;
      ComputeLength();
    }

    method SetTail(payload: Buffer)
      modifies this
      ensures tail == payload && head == old(head) && cpx == old(cpx) && length == |head.bytes| + |tail.bytes|
      ensures fault == (old(fault) || !payload.Aligned() || length > MTU)
      ensures !fault && old(head).Aligned() ==> Formed()
    {
      if payload.address % 4 != 0 {
        fault := true;
      }
      if |payload.bytes| % 4 != 0 {
        fault := true;
      }
      tail := payload;
      ComputeLength();
    }

    // The longest tail that SetTail takes
    method MaxTailLength() returns (n: nat)
      requires |head.bytes| <= MTU
      ensures forall t: Buffer :: t.address % 4 == 0 ==>
        (t.Aligned() && |head.bytes| + |t.bytes| <= MTU <==> |t.bytes| % 4 == 0 && |t.bytes| <= n)
      ensures n % 4 == 0
    {
      n := MTU - |head.bytes|;
      if n % 4 != 0 {
        n := n - n % 4;
      }
    }
  }

  // PI_SPI_CS_KEEP leaves the peer selected after a transfer, PI_SPI_CS_AUTO releases it.
  datatype ChipSelect = Keep | Auto

  datatype Block = Block(length: nat, cs: ChipSelect)

  // The SPI peripheral: bytes go out and come in together.
  class Bus {
    // What the peer answers, by the number of bytes before it in the transaction; and what the line
    // carries when there is nothing to send
    const miso: nat -> U8
    const idle: U8
    var mosi: seq<U8>
    var blocks: seq<Block>

    constructor (miso: nat -> U8, idle: U8)
      ensures this.miso == miso && this.idle == idle && mosi == [] && blocks == []
    {
      this.miso, this.idle, mosi, blocks := miso, idle, [], [];
    }

    // Sends what is in memory at `tx`, and what follows it if the transfer is longer.
    method Transfer(tx: Option<Memory>, rx: array?<U8>, offset: nat, length: nat, cs: ChipSelect)
      requires rx != null ==> offset + length <= rx.Length
      modifies this, rx
      ensures mosi == old(mosi) + Clocked(tx, idle, length)
      ensures blocks == old(blocks) + [Block(length, cs)]
      ensures rx != null ==> rx[..] == Written(old(rx[..]), offset, Slice(miso, |old(mosi)|, length))
    {
      ghost var sent := mosi;
      var i := 0;
      while i < length
        invariant 0 <= i <= length
        invariant mosi == sent + Clocked(tx, idle, i)
        invariant blocks == old(blocks)
        invariant rx != null ==> forall k :: 0 <= k < rx.Length ==>
          rx[k] == if offset <= k < offset + i then miso(|sent| + k - offset) else old(rx[k])
      {
        if rx != null {
          rx[offset + i] := miso(|mosi|);
        }
        mosi := mosi + [if tx.Some? then tx.value.At(i) else idle];
        assert Clocked(tx, idle, i) + [if tx.Some? then tx.value.At(i) else idle] == Clocked(tx, idle, i + 1);
        i := i + 1;
      }
      blocks := blocks + [Block(length, cs)];
    }
  }

  // Bytes in memory, their address, and what lies behind them
  datatype Memory = Memory(address: nat, bytes: seq<U8>, beyond: nat -> U8) {
    function At(i: nat): U8 { if i < |bytes| then bytes[i] else beyond(i - |bytes|) }
  }

  function Clocked(tx: Option<Memory>, idle: U8, n: nat): (s: seq<U8>)
    ensures |s| == n
  {
    seq(n, i requires 0 <= i < n => if tx.Some? then tx.value.At(i) else idle)
  }

  function Written(a: seq<U8>, offset: nat, b: seq<U8>): (s: seq<U8>)
    requires offset + |b| <= |a|
    ensures |s| == |a|
  {
    a[..offset] + b + a[offset + |b|..]
  }

  // cpx_spi_receive_req_t
  class ReceiveReq {
    const header: array<U8>
    const buffer: array<U8>
    const address: nat

    ghost predicate Valid()
      reads this
    {
      header.Length == HEADER_LENGTH && buffer.Length == MTU && address % 4 == 0 && header != buffer
    }

    // cpx_spi_receive_req_init; the allocator returns an aligned buffer.
    constructor (address: nat)
      requires address % 4 == 0
      ensures Valid() && fresh(header) && fresh(buffer)
    {
      this.address := address;
      header := new U8[HEADER_LENGTH](_ => 0);
      buffer := new U8[MTU](_ => 0x77);
    }

    // How much of the packet is received: never more than the buffer holds
    function Length(): (n: nat)
      requires Valid()
      reads this, header
      ensures n <= MTU
    {
      var n := LengthOf(header[..]);
      if n < MTU then n else MTU
    }
  }

  function Max(a: nat, b: nat): nat { if a < b then b else a }

  function RoundUp(n: nat): nat { if n % 4 == 0 then n else n + (4 - n % 4) }

  // The blocks of a transaction that sends s bytes, h of them in the head, and receives l
  function HeadBlocks(s: nat, h: nat, l: nat): seq<Block> {
    if h != 0 then [Block(h, if Max(s, l) == h then Auto else Keep)]
    else if Max(s, l) == 0 then [Block(HEADER_LENGTH, Auto)]
    else []
  }

  function TailBlocks(s: nat, h: nat, l: nat): seq<Block>
    requires h <= s
  {
    if Max(s, l) == h then [] else [Block(RoundUp(Max(s, l) - h), Auto)]
  }

  function AllBlocks(s: nat, h: nat, l: nat): seq<Block>
    requires h <= s
  {
    [Block(HEADER_LENGTH, Keep)] + HeadBlocks(s, h, l) + TailBlocks(s, h, l)
  }

  // No block is empty, odd or too long for the peer, and the peer is released by exactly the last.
  lemma BlocksAreSound(s: nat, h: nat, l: nat)
    requires h <= s <= MTU && l <= MTU && s % 4 == 0 && h % 4 == 0
    ensures var b := AllBlocks(s, h, l);
            && (forall i :: 0 <= i < |b| ==> 0 < b[i].length <= MTU && b[i].length % 4 == 0)
            && (forall i :: 0 <= i < |b| ==> (b[i].cs == Auto <==> i == |b| - 1))
            && 2 <= |b| <= 3
    ensures h + RoundUp(Max(s, l) - h) <= MTU
  {
    var m := Max(s, l) - h;
    assert RoundUp(m) % 4 == 0 && m <= RoundUp(m) <= m + 3;
    assert h + m <= MTU && (h + RoundUp(m)) % 4 == 0;
  }

  // spi_transfer_async: `ok` if no assertion is reached
  method SpiTransfer(bus: Bus, tx: Option<Memory>, rx: array?<U8>, rxAddress: nat, offset: nat,
                     length: nat, cs: ChipSelect)
    returns (ok: bool)
    requires rx != null ==> offset + length <= rx.Length
    modifies bus, rx
    ensures ok <==> (tx.Some? ==> tx.value.address % 4 == 0) && (rx != null ==> (rxAddress + offset) % 4 == 0)
                    && length % 4 == 0 && (tx.Some? || rx != null)
    ensures ok ==> bus.mosi == old(bus.mosi) + Clocked(tx, bus.idle, length)
    ensures ok ==> bus.blocks == old(bus.blocks) + [Block(length, cs)]
    ensures ok && rx != null ==> rx[..] == Written(old(rx[..]), offset, Slice(bus.miso, |old(bus.mosi)|, length))
  {
    if tx.Some? && tx.value.address % 4 != 0 {
      return false;
    }
    if rx != null && (rxAddress + offset) % 4 != 0 {
      return false;
    }
    if length % 4 != 0 {
      return false;
    }
    if !tx.Some? && rx == null {
      return false;
    }
    bus.Transfer(tx, rx, offset, length, cs);
    ok := true;
  }

  // A buffer as the peripheral reads it; NULL is never read.
  function Readable(b: Buffer, beyond: nat -> U8): Option<Memory> {
    if b.address == 0 then None else Some(Memory(b.address, b.bytes, beyond))
  }

  predicate Present(b: Buffer) { b.bytes != [] ==> b.address != 0 }

  // The two sides of a transaction: a well-formed request to send, or none, and a receive request,
  // or none.
  ghost predicate Ready(send: SendReq?, receive: ReceiveReq?)
    reads send, receive
  {
    && (send != null ==> send.Formed() && Present(send.head) && Present(send.tail))
    && (receive != null ==> receive.Valid())
  }

  // send_length, head_length and receive_length
  function SendLength(send: SendReq?): nat
    reads send
  {
    if send == null then 0 else send.length
  }

  function HeadLength(send: SendReq?): nat
    reads send
  {
    if send == null then 0 else |send.head.bytes|
  }

  function ReceiveLength(receive: ReceiveReq?): (n: nat)
    reads receive, if receive == null then {} else {receive.header}
    requires receive != null ==> receive.Valid()
    ensures n <= MTU
  {
    if receive == null then 0 else receive.Length()
  }

  // cpx_spi_transfer_header_async
  method TransferHeader(bus: Bus, send: SendReq?, receive: ReceiveReq?, beyond: nat -> U8) returns (ok: bool)
    requires Ready(send, receive)
    modifies bus, if receive == null then null else receive.header
    ensures ok
    ensures bus.blocks == old(bus.blocks) + [Block(HEADER_LENGTH, Keep)]
    ensures bus.mosi == old(bus.mosi) + (if send == null then [0, 0, 0, 0] else HeaderBytes(send.length, send.cpx))
    ensures receive != null ==> receive.header[..] == Slice(bus.miso, |old(bus.mosi)|, HEADER_LENGTH)
  {
    var header := if send == null then [0, 0, 0, 0] else HeaderBytes(send.length, send.cpx);
    var memory := Some(Memory(0, header, beyond));
    ok := SpiTransfer(bus, memory, if receive == null then null else receive.header, 0, 0, HEADER_LENGTH, Keep);
    assert Clocked(memory, bus.idle, HEADER_LENGTH) == header;
  }

  // cpx_spi_transfer_payload_head_async
  method TransferHead(bus: Bus, send: SendReq?, receive: ReceiveReq?, beyond: nat -> U8) returns (ok: bool)
    requires Ready(send, receive)
    modifies bus, if receive == null then null else receive.buffer
    ensures ok
    ensures bus.blocks == old(bus.blocks) + HeadBlocks(SendLength(send), HeadLength(send), ReceiveLength(receive))
    ensures bus.mosi == old(bus.mosi) +
      HeadBytes(if send == null then [] else send.head.bytes, SendLength(send), ReceiveLength(receive))
    ensures receive != null ==>
      receive.buffer[..] == Written(old(receive.buffer[..]), 0, Slice(bus.miso, |old(bus.mosi)|, HeadLength(send)))
    ensures ReceiveLength(receive) == old(ReceiveLength(receive))
  {
    var h := HeadLength(send);
    var total := Max(SendLength(send), ReceiveLength(receive));
    var endOfTransfer := total == h;
    var cs := if endOfTransfer then Auto else Keep;
    if h == 0 {
      if endOfTransfer {
        var empty := Some(Memory(0, [0, 0, 0, 0], beyond));
        bus.Transfer(empty, null, 0, HEADER_LENGTH, cs);
        assert Clocked(empty, bus.idle, HEADER_LENGTH) == [0, 0, 0, 0];
      }
      ok := true;
    } else {
      var memory := Readable(send.head, beyond);
      ok := SpiTransfer(bus, memory, if receive == null then null else receive.buffer,
                        if receive == null then 0 else receive.address, 0, h, cs);
      assert Clocked(memory, bus.idle, h) == send.head.bytes;
    }
  }

  lemma RoundsUp(n: nat)
    ensures n <= RoundUp(n) && RoundUp(n) == if n % 4 != 0 then n + (4 - n % 4) else n
  {
  }

  lemma FitsRoundedUp(s: nat, h: nat, l: nat)
    requires h <= s <= MTU && l <= MTU && s % 4 == 0 && h % 4 == 0
    ensures h + RoundUp(Max(s, l) - h) <= MTU && RoundUp(Max(s, l) - h) % 4 == 0
    ensures Max(s, l) == h ==> RoundUp(Max(s, l) - h) == 0
  {
    BlocksAreSound(s, h, l);
  }

  lemma StaysAligned(a: nat, h: nat)
    requires a % 4 == 0 && h % 4 == 0
    ensures (a + h) % 4 == 0
  {
  }

  lemma WrittenNothing(a: seq<U8>, offset: nat, miso: nat -> U8, from: nat)
    requires offset <= |a|
    ensures Written(a, offset, Slice(miso, from, 0)) == a
  {
  }

  // cpx_spi_transfer_payload_tail_async
  method TransferTail(bus: Bus, send: SendReq?, receive: ReceiveReq?, beyond: nat -> U8) returns (ok: bool)
    requires Ready(send, receive)
    modifies bus, if receive == null then null else receive.buffer
    ensures ok
    ensures bus.blocks == old(bus.blocks) + TailBlocks(SendLength(send), HeadLength(send), ReceiveLength(receive))
    ensures old(bus.mosi) <= bus.mosi
    ensures send != null ==> old(bus.mosi) + send.tail.bytes <= bus.mosi
    ensures receive != null ==>
      var n := RoundUp(Max(SendLength(send), ReceiveLength(receive)) - HeadLength(send));
      HeadLength(send) + n <= MTU &&
      receive.buffer[..] == Written(old(receive.buffer[..]), HeadLength(send), Slice(bus.miso, |old(bus.mosi)|, n))
    ensures ReceiveLength(receive) == old(ReceiveLength(receive))
  {
    hide Written, Slice, RoundUp;
    var s, h, l := SendLength(send), HeadLength(send), ReceiveLength(receive);
    FitsRoundedUp(s, h, l);
    var remaining := Max(s, l) - h;
    if remaining == 0 {
      if receive != null {
        WrittenNothing(receive.buffer[..], h, bus.miso, |bus.mosi|);
      }
      return true;
    }
    if remaining % 4 != 0 {
      remaining := remaining + (4 - remaining % 4);
    }
    assert remaining == RoundUp(Max(s, l) - h) by { RoundsUp(Max(s, l) - h); }
    if receive != null {
      StaysAligned(receive.address, h);
    }
    var memory := if send == null then None else Readable(send.tail, beyond);
    ok := SpiTransfer(bus, memory, if receive == null then null else receive.buffer,
                      if receive == null then 0 else receive.address, h, remaining, Auto);
    if send != null && send.tail.bytes != [] {
      assert Clocked(memory, bus.idle, remaining)[..|send.tail.bytes|] == send.tail.bytes;
    }
  }

  // How either end reads what came over the wire
  function Payload(wire: seq<U8>): seq<U8>
    requires |wire| >= HEADER_LENGTH && |wire| >= HEADER_LENGTH + LengthOf(wire)
  {
    wire[HEADER_LENGTH..HEADER_LENGTH + LengthOf(wire)]
  }

  lemma HeaderSaysLength(n: nat, cpx: CpxHeader, payload: seq<U8>, wire: seq<U8>)
    requires n < 0x1_0000 && |payload| == n && HeaderBytes(n, cpx) + payload <= wire
    ensures LengthOf(wire) == n && Payload(wire) == payload && Routing(wire) == cpx
  {
    var h := HeaderBytes(n, cpx);
    assert wire[0] == (h + payload)[0] && wire[1] == (h + payload)[1];
    assert wire[2] == (h + payload)[2] && wire[3] == (h + payload)[3];
    RoutingRoundTrip(cpx, wire);
    hide Routing;
    assert wire[HEADER_LENGTH..HEADER_LENGTH + n] == (h + payload)[HEADER_LENGTH..];
  }

  // After the head: what the head transfer put on the wire, the dummy one included
  function HeadBytes(head: seq<U8>, s: nat, l: nat): seq<U8> {
    if head != [] then head else if s == l == 0 then [0, 0, 0, 0] else []
  }

  lemma SentWhole(head: seq<U8>, tail: seq<U8>, cpx: CpxHeader, l: nat, wire: seq<U8>)
    requires |head| + |tail| <= MTU
    requires HeaderBytes(|head| + |tail|, cpx) + HeadBytes(head, |head| + |tail|, l) + tail <= wire
    ensures |wire| >= HEADER_LENGTH + |head| + |tail| && LengthOf(wire) == |head| + |tail|
    ensures Payload(wire) == head + tail && Routing(wire) == cpx
  {
    hide Routing;
    var n := |head| + |tail|;
    var header := HeaderBytes(n, cpx);
    if n == 0 {
      assert header + (head + tail) == header;
      assert header <= wire;
    } else {
      assert header + HeadBytes(head, n, l) + tail == header + (head + tail);
    }
    HeaderSaysLength(n, cpx, head + tail, wire);
  }

  // Two blocks written one after the other are one.
  lemma ReceivedWhole(a: seq<U8>, miso: nat -> U8, from: nat, h: nat, n: nat, l: nat)
    requires l <= h + n <= |a|
    ensures Written(Written(a, 0, Slice(miso, from, h)), h, Slice(miso, from + h, n))[..l] == Slice(miso, from, l)
  {
    var b := Written(a, 0, Slice(miso, from, h));
    var c := Written(b, h, Slice(miso, from + h, n));
    forall k: nat | k < l ensures c[k] == miso(from + k) {
      if k < h {
        assert c[k] == b[k];
      }
    }
  }

  lemma AnswerIsPayload(miso: nat -> U8, l: nat)
    requires LengthOf(Slice(miso, 0, HEADER_LENGTH)) == l <= MTU
    ensures Payload(Slice(miso, 0, MAX_PACKET_LENGTH)) == Slice(miso, HEADER_LENGTH, l)
  {
  }

  // Steps 9 and 10
  method TransferPayload(bus: Bus, send: SendReq?, receive: ReceiveReq?, beyond: nat -> U8)
    returns (ok: bool)
    requires Ready(send, receive)
    modifies bus, if receive == null then null else receive.buffer
    ensures ok
    ensures ReceiveLength(receive) == old(ReceiveLength(receive))
    ensures bus.blocks == old(bus.blocks) + HeadBlocks(SendLength(send), HeadLength(send), ReceiveLength(receive))
                          + TailBlocks(SendLength(send), HeadLength(send), ReceiveLength(receive))
    ensures old(bus.mosi) <= bus.mosi
    ensures send != null ==>
      old(bus.mosi) + HeadBytes(send.head.bytes, send.length, ReceiveLength(receive)) + send.tail.bytes <= bus.mosi
    ensures receive != null ==>
      receive.buffer[..ReceiveLength(receive)] == Slice(bus.miso, |old(bus.mosi)|, ReceiveLength(receive))
  {
    hide Written, Slice, HeadBlocks, TailBlocks, RoundUp;
    ghost var before := if receive == null then [] else receive.buffer[..];
    ghost var s, h, l, m := SendLength(send), HeadLength(send), ReceiveLength(receive), |bus.mosi|;
    ok := TransferHead(bus, send, receive, beyond);
    assert |bus.mosi| == m + h || (h == 0 && l == 0);
    ok := TransferTail(bus, send, receive, beyond);
    if receive != null && l > 0 {
      var n := RoundUp(Max(s, l) - h);
      RoundsUp(Max(s, l) - h);
      ReceivedWhole(before, bus.miso, m, h, n, l);
    }
  }

  // Steps 6 to 10 of cpx_spi_task. The peer reads the payload that was asked to be sent, in one
  // piece; its own payload lies in one piece in the receive buffer; no assertion is reached.
  method Transaction(bus: Bus, send: SendReq?, receive: ReceiveReq?, beyond: nat -> U8, bidirectional: bool)
    returns (ok: bool)
    requires Ready(send, receive) && bus.mosi == [] && bus.blocks == []
    modifies bus, if receive == null then null else receive.header, if receive == null then null else receive.buffer
    ensures ok
    ensures bus.blocks == AllBlocks(SendLength(send), HeadLength(send), ReceiveLength(receive))
    ensures send != null ==>
      && |bus.mosi| >= HEADER_LENGTH && LengthOf(bus.mosi) == send.length && |bus.mosi| >= HEADER_LENGTH + send.length
      && Payload(bus.mosi) == send.head.bytes + send.tail.bytes && Routing(bus.mosi) == send.cpx
    ensures send == null ==> |bus.mosi| >= HEADER_LENGTH && forall i :: 0 <= i < HEADER_LENGTH ==> bus.mosi[i] == 0
    ensures receive != null ==> Routing(receive.header[..]) == Routing(Slice(bus.miso, 0, HEADER_LENGTH))
    ensures receive != null && bidirectional ==>
      var n := LengthOf(Slice(bus.miso, 0, HEADER_LENGTH));
      && ReceiveLength(receive) == (if n < MTU then n else MTU)
      && receive.buffer[..ReceiveLength(receive)] == Slice(bus.miso, HEADER_LENGTH, ReceiveLength(receive))
    ensures receive != null && bidirectional && LengthOf(Slice(bus.miso, 0, HEADER_LENGTH)) <= MTU ==>
      receive.buffer[..ReceiveLength(receive)] == Payload(Slice(bus.miso, 0, MAX_PACKET_LENGTH))
    ensures receive != null && !bidirectional ==> ReceiveLength(receive) == 0
  {
    hide Written, Slice, Payload, LengthOf, HeaderBytes, HeadBlocks, TailBlocks, RoundUp, HeadBytes, Routing;
    ok := TransferHeader(bus, send, receive, beyond);
    if receive != null && !bidirectional {
      ghost var before := receive.header[..];
      receive.header[0], receive.header[1] := 0, 0;
      ZeroLength(receive.header[..]);
      SameRouting(before, receive.header[..]);
    }
    ok := TransferPayload(bus, send, receive, beyond);
    if send != null {
      SentWhole(send.head.bytes, send.tail.bytes, send.cpx, ReceiveLength(receive), bus.mosi);
    }
    if receive != null && LengthOf(Slice(bus.miso, 0, HEADER_LENGTH)) <= MTU {
      AnswerIsPayload(bus.miso, LengthOf(Slice(bus.miso, 0, HEADER_LENGTH)));
    }
  }

  lemma SameRouting(a: seq<U8>, b: seq<U8>)
    requires |a| >= HEADER_LENGTH && |b| >= HEADER_LENGTH && a[2] == b[2] && a[3] == b[3]
    ensures Routing(a) == Routing(b)
  {
  }

  lemma ZeroLength(header: seq<U8>)
    requires |header| == HEADER_LENGTH && header[0] == header[1] == 0
    ensures LengthOf(header) == 0
  {
  }

}
